/**
 * The ledger and the relay together: once every outbox row is marked, the log of the broker, read
 * without repetitions, rebuilds the reserved and the merchants' money.
 */
module Delivery {
  import opened Schema
  import opened Sequences
  import opened Sums
  import opened Invariants
  import opened Machine
  import opened History
  import opened Relay
  import opened RelayOrder
  import Guarantees

  function EventsOf(rows: seq<Row>): seq<Event> {
    seq(|rows|, i requires 0 <= i < |rows| => rows[i].event)
  }

  /** The relay's table holds the committed outbox of the ledger, in the order of its ids. */
  ghost predicate Mirrors(s: Sys, db: Db) {
    multiset(EventsOf(s.rows)) == multiset(db.outbox)
  }

  lemma {:induction false} FirstIsDistinct(log: seq<Row>)
    ensures Distinct(First(log))
  {
    if log != [] {
      var front := log[..|log| - 1];
      FirstIsDistinct(front);
      FirstMembers(front, log[|log| - 1]);
    }
  }

  /** Whatever replicas ran and whatever failed: when no row is left, each was published, and nothing else. */
  lemma AllPublished(moves: seq<Move>, s: Sys)
    requires Path(Start(), moves, s) && Unprocessed(s) == {}
    ensures multiset(First(s.log)) == multiset(s.rows)
  {
    AtLeastOnce(moves, s);
    StartIsSafe();
    PathKeepsSafe(Start(), moves, s);
    FirstIsDistinct(s.log);
    forall x ensures multiset(First(s.log))[x] == multiset(s.rows)[x] {
      FirstMembers(s.log, x);
      PublishedIffCommitted(s, x);
      DistinctCount(First(s.log), x);
      DistinctCount(s.rows, x);
    }
  }

  lemma PublishedIffCommitted(s: Sys, x: Row)
    requires Safe(s) && Unprocessed(s) == {}
    ensures x in s.log <==> x in s.rows
  {
    if x in s.rows {
      var i :| 0 <= i < |s.rows| && s.rows[i] == x;
      assert x.id in Ids(s.rows);
      assert x.id in s.processed by {
        assert x.id !in Unprocessed(s);
      }
      assert Published(s, x.id);
      var j :| 0 <= j < |s.log| && s.log[j].id == x.id;
      assert s.log[j] in s.rows;
      var k :| 0 <= k < |s.rows| && s.rows[k] == s.log[j];
      assert i == k;
    }
  }

  lemma {:induction false} SumOfEvents(rows: seq<Row>, f: Event -> int, h: Row -> int)
    requires forall r: Row :: h(r) == f(r.event)
    ensures SumBy(EventsOf(rows), f) == SumBy(rows, h)
  {
    if rows != [] {
      var front, last := rows[..|rows| - 1], rows[|rows| - 1];
      SumOfEvents(front, f, h);
      assert EventsOf(rows) == EventsOf(front) + [last.event];
      SumByAppend(EventsOf(front), last.event, f);
    }
  }

  lemma SameSums(a: seq<Row>, rows: seq<Row>, outbox: seq<Event>, f: Event -> int)
    requires multiset(a) == multiset(rows) && multiset(EventsOf(rows)) == multiset(outbox)
    ensures SumBy(EventsOf(a), f) == SumBy(outbox, f)
  {
    hide SumBy, EventsOf;
    var h := (r: Row) => f(r.event);
    SumByPermutation(a, rows, h);
    SumOfEvents(a, f, h);
    SumOfEvents(rows, f, h);
    SumByPermutation(EventsOf(rows), outbox, f);
  }

  lemma PublishedEventsRebuild(db: Db, moves: seq<Move>, s: Sys, a: Uuid, c: Currency)
    requires Reachable(db) && a in db.accounts && Supported(c)
    requires Path(Start(), moves, s) && Mirrors(s, db) && Unprocessed(s) == {}
    ensures a in db.balances && db.balances[a].held == Reserved(EventsOf(First(s.log)), a)
    ensures Payable(c) in db.balances && db.balances[Payable(c)].available == CapturedIn(EventsOf(First(s.log)), c)
  {
    hide Reachable, Path, First;
    Guarantees.OutboxRebuildsBalances(db, a, c);
    AllPublished(moves, s);
    SameSums(First(s.log), s.rows, db.outbox, (e: Event) => if e.accountId == a then Effect(e) else 0);
    SameSums(First(s.log), s.rows, db.outbox,
             (e: Event) => if e.currency == c && e.detail.FundsCaptured? then e.amount else 0);
  }

  // Ledger and relays in one system

  datatype World = World(db: Db, relay: Sys)

  /** An attempt of a service, with the rows that its commit adds to the outbox, or a move of a relay. */
  datatype Joint = Serve(attempt: Attempt, rows: seq<Row>) | Drain(move: Move)

  function Inserts(rows: seq<Row>): seq<Move> {
    seq(|rows|, i requires 0 <= i < |rows| => Insert(rows[i]))
  }

  function InsertAll(s: Sys, rows: seq<Row>): Sys {
    if rows == [] then s
    else
      var before := InsertAll(s, rows[..|rows| - 1]);
      before.(rows := Inserted(before.rows, rows[|rows| - 1]))
  }

  ghost predicate NewIds(s: Sys, rows: seq<Row>) {
    && (forall i :: 0 <= i < |rows| ==> rows[i].id !in Ids(s.rows))
    && forall i, j :: 0 <= i < j < |rows| ==> rows[i].id != rows[j].id
  }

  /** The events that the ledger appends come with new ids, in whatever order. */
  ghost predicate Possible(w: World, j: Joint) {
    match j
    case Serve(a, rows) =>
      Admissible(a.body) && NewIds(w.relay, rows) && Step(w.db, a).outbox == w.db.outbox + EventsOf(rows)
    case Drain(m) => !m.Insert? && Enabled(w.relay, m)
  }

  ghost function After(w: World, j: Joint): World
    requires Possible(w, j)
  {
    match j
    case Serve(a, rows) => World(Step(w.db, a), InsertAll(w.relay, rows))
    case Drain(m) => World(w.db, Apply(w.relay, m))
  }

  ghost predicate JointRun(w: World, steps: seq<Joint>, after: World)
    decreases |steps|
  {
    if steps == [] then after == w else Possible(w, steps[0]) && JointRun(After(w, steps[0]), steps[1..], after)
  }

  ghost predicate Linked(w: World) {
    Reachable(w.db) && (exists moves :: Path(Start(), moves, w.relay)) && Mirrors(w.relay, w.db)
  }

  lemma EventsOfConcat(a: seq<Row>, b: seq<Row>)
    ensures EventsOf(a + b) == EventsOf(a) + EventsOf(b)
  {
  }

  lemma InsertedEvents(rows: seq<Row>, row: Row)
    ensures multiset(EventsOf(Inserted(rows, row))) == multiset(EventsOf(rows)) + multiset{row.event}
    ensures Ids(Inserted(rows, row)) == Ids(rows) + {row.id}
  {
    PositionBounds(rows, row.id);
    var k := Position(rows, row.id);
    var front, back := rows[..k], rows[k..];
    assert rows == front + back;
    EventsOfConcat(front, back);
    EventsOfConcat(front, [row]);
    EventsOfConcat(front + [row], back);
    IdsConcat(front, back);
    IdsConcat(front, [row]);
    IdsConcat(front + [row], back);
    assert [row][0].id in Ids([row]);
  }

  lemma {:induction false} InsertAllAdds(s: Sys, rows: seq<Row>)
    ensures Ids(InsertAll(s, rows).rows) == Ids(s.rows) + Ids(rows)
    ensures multiset(EventsOf(InsertAll(s, rows).rows)) == multiset(EventsOf(s.rows)) + multiset(EventsOf(rows))
  {
    hide Inserted, Ids;
    if rows == [] {
      IdsNone();
    } else {
      var front, last := rows[..|rows| - 1], rows[|rows| - 1];
      InsertAllAdds(s, front);
      InsertedEvents(InsertAll(s, front).rows, last);
      assert rows == front + [last];
      IdsSnoc(front, last);
      EventsOfSnoc(front, last);
    }
  }

  lemma EventsOfSnoc(rows: seq<Row>, row: Row)
    ensures EventsOf(rows + [row]) == EventsOf(rows) + [row.event]
  {
  }

  lemma {:induction false} InsertAllIsPath(s: Sys, rows: seq<Row>)
    requires NewIds(s, rows)
    ensures Path(s, Inserts(rows), InsertAll(s, rows))
  {
    hide Path, Inserted;
    if rows == [] {
      PathNone(s);
    } else {
      var front, last := rows[..|rows| - 1], rows[|rows| - 1];
      InsertAllIsPath(s, front);
      InsertAllAdds(s, front);
      PathSnoc(s, Inserts(front), InsertAll(s, front), Insert(last));
      assert Inserts(rows) == Inserts(front) + [Insert(last)];
    }
  }

  lemma ReachableStep(db: Db, a: Attempt)
    requires Reachable(db) && Admissible(a.body)
    ensures Reachable(Step(db, a))
  {
    hide Step;
    var run :| AdmissibleRun(run) && db == Run(Initial(), run);
    RunSnoc(Initial(), run, a);
    assert AdmissibleRun(run + [a]);
  }

  lemma JointKeepsLinked(w: World, j: Joint)
    requires Linked(w) && Possible(w, j)
    ensures Linked(After(w, j))
  {
    hide Path, Reachable, Step, InsertAll, Apply, Enabled;
    var moves :| Path(Start(), moves, w.relay);
    match j
    case Serve(a, rows) =>
      InsertAllIsPath(w.relay, rows);
      InsertAllAdds(w.relay, rows);
      PathConcat(Start(), moves, w.relay, Inserts(rows), InsertAll(w.relay, rows));
      ReachableStep(w.db, a);
    case Drain(m) =>
      PathSnoc(Start(), moves, w.relay, m);
      MoveKeepsTable(w.relay, m);
  }

  lemma MoveKeepsTable(s: Sys, m: Move)
    requires !m.Insert? && Enabled(s, m)
    ensures Apply(s, m).rows == s.rows
  {
  }

  lemma {:induction false} JointRunIsLinked(w: World, steps: seq<Joint>, after: World)
    requires Linked(w) && JointRun(w, steps, after)
    ensures Linked(after)
    decreases |steps|
  {
    hide Linked, Possible, After;
    if steps != [] {
      JointKeepsLinked(w, steps[0]);
      JointRunIsLinked(After(w, steps[0]), steps[1..], after);
    }
  }

  /** The migrated database and an empty outbox. */
  function Genesis(): World {
    World(Initial(), Start())
  }

  lemma GenesisIsLinked()
    ensures Linked(Genesis())
  {
    assert AdmissibleRun([]) && Run(Initial(), []) == Initial();
    PathNone(Start());
  }

  /** Every attempt can be made at any time: there are always new ids for what it appends to the outbox. */
  lemma ServiceIsNeverBlocked(w: World, a: Attempt) returns (rows: seq<Row>)
    requires Admissible(a.body)
    ensures Possible(w, Serve(a, rows))
  {
    hide Step;
    StepExtends(w.db, a);
    var added := Step(w.db, a).outbox[|w.db.outbox|..];
    var base := Above(w.relay.rows);
    rows := seq(|added|, i requires 0 <= i < |added| => Row(base + i, added[i]));
    assert EventsOf(rows) == added;
    AboveAll(w.relay.rows);
  }

  function Above(rows: seq<Row>): nat {
    if rows == [] then 0
    else
      var n, last := Above(rows[..|rows| - 1]), rows[|rows| - 1].id;
      if last < n then n else last + 1
  }

  lemma {:induction false} AboveAll(rows: seq<Row>)
    ensures forall i :: 0 <= i < |rows| ==> rows[i].id < Above(rows)
  {
    if rows != [] {
      AboveAll(rows[..|rows| - 1]);
      assert forall i :: 0 <= i < |rows| - 1 ==> rows[i] == rows[..|rows| - 1][i];
    }
  }

  /**
   * End to end, along every joint run of services and relays from the migrated database: once every outbox
   * row is marked, the published events alone rebuild what is reserved and what the merchants are owed.
   */
  lemma PublishedEventsRebuildBalances(steps: seq<Joint>, w: World, a: Uuid, c: Currency)
    requires JointRun(Genesis(), steps, w) && Unprocessed(w.relay) == {}
    requires a in w.db.accounts && Supported(c)
    ensures var seen := EventsOf(First(w.relay.log));
      && a in w.db.balances && w.db.balances[a].held == Reserved(seen, a)
      && Payable(c) in w.db.balances && w.db.balances[Payable(c)].available == CapturedIn(seen, c)
  {
    hide Reachable, Path, First, JointRun, Mirrors;
    GenesisIsLinked();
    JointRunIsLinked(Genesis(), steps, w);
    var moves :| Path(Start(), moves, w.relay);
    PublishedEventsRebuild(w.db, moves, w.relay, a, c);
  }
}
