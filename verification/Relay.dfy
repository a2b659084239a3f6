/**
 * internal/outbox/outbox.go: relays that publish committed outbox rows. Any number of replicas take
 * batches under FOR UPDATE SKIP LOCKED; every lookup, publish, update and commit may fail.
 */
module Relay {
  import opened Schema

  /** A committed outbox row; ids are ordered as PostgreSQL orders uuids. */
  datatype Row = Row(id: nat, event: Event)

  /** An open drain: the rows it has locked and how many of them it has published. */
  datatype Batch = Batch(rows: seq<Row>, sent: nat)

  /** rows is the table in id order, log the broker, open the running drains by replica. */
  datatype Sys = Sys(rows: seq<Row>, processed: set<nat>, log: seq<Row>, open: map<nat, Batch>)

  const BATCH_LIMIT: nat := 50

  function Ids(rows: seq<Row>): set<nat> {
    set i | 0 <= i < |rows| :: rows[i].id
  }

  predicate Locked(open: map<nat, Batch>, id: nat) {
    exists r :: r in open && id in Ids(open[r].rows)
  }

  /** Unprocessed rows that no open drain has locked, in id order. */
  function Available(rows: seq<Row>, processed: set<nat>, open: map<nat, Batch>): seq<Row> {
    if rows == [] then []
    else
      var last := rows[|rows| - 1];
      Available(rows[..|rows| - 1], processed, open)
        + (if last.id in processed || Locked(open, last.id) then [] else [last])
  }

  function Take(rows: seq<Row>): seq<Row> {
    if |rows| <= BATCH_LIMIT then rows else rows[..BATCH_LIMIT]
  }

  // The steps of the system

  datatype Move =
    | Insert(row: Row)
    | Begin(replica: nat, size: nat)
    | Publish(replica: nat)
    | PublishUnacknowledged(replica: nat)
    | Abort(replica: nat)
    | Commit(replica: nat)

  ghost predicate Sorted(rows: seq<Row>) {
    forall i, j :: 0 <= i < j < |rows| ==> rows[i].id < rows[j].id
  }

  function Position(rows: seq<Row>, id: nat): nat {
    if rows == [] then 0
    else if rows[|rows| - 1].id < id then |rows| else Position(rows[..|rows| - 1], id)
  }

  lemma {:induction false} PositionBounds(rows: seq<Row>, id: nat)
    ensures Position(rows, id) <= |rows|
  {
    if rows != [] && id <= rows[|rows| - 1].id {
      PositionBounds(rows[..|rows| - 1], id);
    }
  }

  /** The table, in id order, after a row has been committed. */
  function Inserted(rows: seq<Row>, row: Row): seq<Row> {
    PositionBounds(rows, row.id);
    rows[..Position(rows, row.id)] + [row] + rows[Position(rows, row.id)..]
  }

  predicate Enabled(s: Sys, m: Move) {
    match m
    case Insert(row) => row.id !in Ids(s.rows)
    case Begin(r, size) => r !in s.open && size <= |Take(Available(s.rows, s.processed, s.open))|
    case Publish(r) => r in s.open && s.open[r].sent < |s.open[r].rows|
    case PublishUnacknowledged(r) => r in s.open && s.open[r].sent < |s.open[r].rows|
    case Abort(r) => r in s.open
    case Commit(r) => r in s.open && s.open[r].sent == |s.open[r].rows|
  }

  function Apply(s: Sys, m: Move): Sys
    requires Enabled(s, m)
  {
    match m
    case Insert(row) => s.(rows := Inserted(s.rows, row))
    case Begin(r, size) => s.(open := s.open[r := Batch(Available(s.rows, s.processed, s.open)[..size], 0)])
    case Publish(r) =>
      s.(log := s.log + [s.open[r].rows[s.open[r].sent]],
         open := s.open[r := Batch(s.open[r].rows, s.open[r].sent + 1)])
    case PublishUnacknowledged(r) => s.(log := s.log + [s.open[r].rows[s.open[r].sent]], open := s.open - {r})
    case Abort(r) => s.(open := s.open - {r})
    case Commit(r) => s.(processed := s.processed + Ids(s.open[r].rows), open := s.open - {r})
  }

  // Safety for any number of replicas

  ghost predicate Subset(part: seq<Row>, whole: seq<Row>) {
    forall i :: 0 <= i < |part| ==> part[i] in whole
  }

  ghost predicate BatchSound(s: Sys, b: Batch) {
    && b.sent <= |b.rows| <= BATCH_LIMIT
    && Sorted(b.rows)
    && Subset(b.rows, s.rows) && Subset(b.rows[..b.sent], s.log)
    && Ids(b.rows) !! s.processed
  }

  ghost predicate Published(s: Sys, id: nat) {
    exists i :: 0 <= i < |s.log| && s.log[i].id == id
  }

  ghost predicate Safe(s: Sys) {
    && Sorted(s.rows)
    && Subset(s.log, s.rows)
    && (forall id :: id in s.processed ==> Published(s, id) && id in Ids(s.rows))
    && (forall r :: r in s.open ==> BatchSound(s, s.open[r]))
    && forall q, r | q in s.open && r in s.open && q != r :: Ids(s.open[q].rows) !! Ids(s.open[r].rows)
  }

  lemma {:induction false} AvailableSound(rows: seq<Row>, processed: set<nat>, open: map<nat, Batch>)
    requires Sorted(rows)
    ensures var free := Available(rows, processed, open);
      Sorted(free) && Subset(free, rows)
      && forall i :: 0 <= i < |free| ==> free[i].id !in processed && !Locked(open, free[i].id)
  {
    if rows != [] {
      AvailableSound(rows[..|rows| - 1], processed, open);
    }
  }

  lemma BeginKeepsSafe(s: Sys, r: nat, size: nat)
    requires Safe(s) && Enabled(s, Begin(r, size))
    ensures Safe(Apply(s, Begin(r, size)))
  {
    AvailableSound(s.rows, s.processed, s.open);
    var after := Apply(s, Begin(r, size));
    var free := Available(s.rows, s.processed, s.open);
    assert BatchSound(after, after.open[r]);
    forall q | q in s.open ensures Ids(s.open[q].rows) !! Ids(free[..size]) && BatchSound(after, after.open[q]) {
      assert BatchSound(s, s.open[q]);
      forall i | 0 <= i < size ensures free[i].id !in Ids(s.open[q].rows) {
        assert !Locked(s.open, free[i].id);
      }
    }
    assert forall id :: Published(s, id) ==> Published(after, id);
  }

  lemma LogGrows(s: Sys, after: Sys, row: Row)
    requires after.log == s.log + [row]
    ensures forall id :: Published(s, id) ==> Published(after, id)
  {
    forall id | Published(s, id) ensures Published(after, id) {
      var i :| 0 <= i < |s.log| && s.log[i].id == id;
      assert after.log[i].id == id;
    }
  }

  lemma PublishKeepsSafe(s: Sys, r: nat)
    requires Safe(s) && Enabled(s, Publish(r))
    ensures Safe(Apply(s, Publish(r))) && Safe(Apply(s, PublishUnacknowledged(r)))
  {
    var b := s.open[r];
    var after := Apply(s, Publish(r));
    assert BatchSound(s, b);
    LogGrows(s, after, b.rows[b.sent]);
    LogGrows(s, Apply(s, PublishUnacknowledged(r)), b.rows[b.sent]);
    forall q | q in s.open ensures BatchSound(after, after.open[q]) {
      assert BatchSound(s, s.open[q]);
      assert b.rows[b.sent] in after.log;
    }
    forall q | q in s.open && q != r ensures BatchSound(Apply(s, PublishUnacknowledged(r)), s.open[q]) {
      assert BatchSound(s, s.open[q]);
    }
  }

  lemma AbortKeepsSafe(s: Sys, r: nat)
    requires Safe(s) && Enabled(s, Abort(r))
    ensures Safe(Apply(s, Abort(r)))
  {
    var after := Apply(s, Abort(r));
    forall q | q in after.open ensures BatchSound(after, after.open[q]) {
      assert BatchSound(s, s.open[q]);
    }
    assert forall id :: Published(s, id) ==> Published(after, id);
  }

  lemma CommitKeepsSafe(s: Sys, r: nat)
    requires Safe(s) && Enabled(s, Commit(r))
    ensures Safe(Apply(s, Commit(r)))
  {
    var b := s.open[r];
    var after := Apply(s, Commit(r));
    assert BatchSound(s, b);
    forall q | q in after.open ensures BatchSound(after, after.open[q]) {
      assert BatchSound(s, s.open[q]);
    }
    forall id | id in after.processed ensures Published(after, id) && id in Ids(after.rows) {
      if id in s.processed {
        assert Published(s, id);
      } else {
        var i :| 0 <= i < |b.rows| && b.rows[i].id == id;
        assert b.rows[..b.sent][i] in s.log && b.rows[i] in s.rows;
      }
    }
  }

  lemma {:induction false} PositionSplits(rows: seq<Row>, id: nat)
    requires Sorted(rows) && id !in Ids(rows)
    ensures Position(rows, id) <= |rows|
    ensures forall i :: 0 <= i < |rows| ==> (rows[i].id < id <==> i < Position(rows, id))
  {
    if rows != [] && id <= rows[|rows| - 1].id {
      var front := rows[..|rows| - 1];
      forall i | 0 <= i < |front| ensures front[i].id != id {
        assert rows[i].id in Ids(rows);
      }
      PositionSplits(front, id);
      assert rows[|rows| - 1].id in Ids(rows);
    }
  }

  lemma InsertedIsSorted(rows: seq<Row>, row: Row)
    requires Sorted(rows) && row.id !in Ids(rows)
    ensures Sorted(Inserted(rows, row)) && Subset(rows, Inserted(rows, row)) && row in Inserted(rows, row)
  {
    PositionSplits(rows, row.id);
    var k := Position(rows, row.id);
    var after := Inserted(rows, row);
    forall i | 0 <= i < |rows| ensures rows[i] in after {
      assert after[if i < k then i else i + 1] == rows[i];
    }
    assert after[k] == row;
  }

  lemma SubsetTransitive(a: seq<Row>, b: seq<Row>, c: seq<Row>)
    requires Subset(a, b) && Subset(b, c)
    ensures Subset(a, c)
  {
  }

  lemma InsertKeepsSafe(s: Sys, row: Row)
    requires Safe(s) && Enabled(s, Insert(row))
    ensures Safe(Apply(s, Insert(row)))
  {
    var after := Apply(s, Insert(row));
    InsertedIsSorted(s.rows, row);
    hide Inserted;
    SubsetTransitive(s.log, s.rows, after.rows);
    forall r | r in s.open ensures BatchSound(after, after.open[r]) {
      assert BatchSound(s, s.open[r]);
      SubsetTransitive(s.open[r].rows, s.rows, after.rows);
    }
    forall id | id in s.processed ensures Published(after, id) && id in Ids(after.rows) {
      assert Published(s, id);
      var i :| 0 <= i < |s.log| && s.log[i].id == id;
      assert after.log[i].id == id && s.log[i] in after.rows;
    }
  }

  lemma MoveKeepsSafe(s: Sys, m: Move)
    requires Safe(s) && Enabled(s, m)
    ensures Safe(Apply(s, m))
  {
    hide Safe, Apply, Enabled;
    match m
    case Insert(row) => InsertKeepsSafe(s, row);
    case Begin(r, size) => BeginKeepsSafe(s, r, size);
    case Publish(r) => PublishKeepsSafe(s, r);
    case PublishUnacknowledged(r) => EnabledTogether(s, r); PublishKeepsSafe(s, r);
    case Abort(r) => AbortKeepsSafe(s, r);
    case Commit(r) => CommitKeepsSafe(s, r);
  }

  lemma EnabledTogether(s: Sys, r: nat)
    ensures Enabled(s, PublishUnacknowledged(r)) <==> Enabled(s, Publish(r))
  {
  }

  // Paths

  /** The moves lead from s to after, each of them enabled when it is made. */
  ghost predicate Path(s: Sys, moves: seq<Move>, after: Sys)
    decreases |moves|
  {
    if moves == [] then after == s
    else Enabled(s, moves[0]) && Path(Apply(s, moves[0]), moves[1..], after)
  }

  lemma PathNone(s: Sys)
    ensures Path(s, [], s)
  {
  }

  lemma {:induction false} PathConcat(s: Sys, m: seq<Move>, middle: Sys, n: seq<Move>, after: Sys)
    requires Path(s, m, middle) && Path(middle, n, after)
    ensures Path(s, m + n, after)
    decreases |m|
  {
    hide Enabled, Apply;
    if m == [] {
      assert m + n == n;
    } else {
      PathConcat(Apply(s, m[0]), m[1..], middle, n, after);
      assert (m + n)[0] == m[0] && (m + n)[1..] == m[1..] + n;
    }
  }

  lemma PathSnoc(s: Sys, moves: seq<Move>, middle: Sys, m: Move)
    requires Path(s, moves, middle) && Enabled(middle, m)
    ensures Path(s, moves + [m], Apply(middle, m))
  {
    hide Enabled, Apply;
    assert [m][1..] == [];
    assert Path(middle, [m], Apply(middle, m));
    PathConcat(s, moves, middle, [m], Apply(middle, m));
  }

  lemma {:induction false} PathSplit(s: Sys, m: seq<Move>, n: seq<Move>, after: Sys) returns (middle: Sys)
    requires Path(s, m + n, after)
    ensures Path(s, m, middle) && Path(middle, n, after)
    decreases |m|
  {
    hide Enabled, Apply;
    if m == [] {
      assert m + n == n;
      middle := s;
    } else {
      assert (m + n)[0] == m[0] && (m + n)[1..] == m[1..] + n;
      middle := PathSplit(Apply(s, m[0]), m[1..], n, after);
    }
  }

  lemma {:induction false} PathKeepsSafe(s: Sys, moves: seq<Move>, after: Sys)
    requires Safe(s) && Path(s, moves, after)
    ensures Safe(after)
    decreases |moves|
  {
    hide Safe, Apply, Enabled;
    if moves != [] {
      MoveKeepsSafe(s, moves[0]);
      PathKeepsSafe(Apply(s, moves[0]), moves[1..], after);
    }
  }

  /** An empty outbox, nothing published, no drain open. */
  function Start(): Sys {
    Sys([], {}, [], map[])
  }

  lemma StartIsSafe()
    ensures Safe(Start())
  {
  }

  /**
   * At-least-once with any number of replicas and any failures: concurrent batches are disjoint, every
   * processed row was published, and everything published is a committed row.
   */
  lemma AtLeastOnce(moves: seq<Move>, s: Sys)
    requires Path(Start(), moves, s)
    ensures forall q, r | q in s.open && r in s.open && q != r :: Ids(s.open[q].rows) !! Ids(s.open[r].rows)
    ensures forall id :: id in s.processed ==> exists i :: 0 <= i < |s.log| && s.log[i].id == id
    ensures forall i :: 0 <= i < |s.log| ==> s.log[i] in s.rows
    ensures forall r :: r in s.open ==> Ids(s.open[r].rows) !! s.processed
  {
    StartIsSafe();
    PathKeepsSafe(Start(), moves, s);
    assert forall id :: id in s.processed ==> Published(s, id);
    assert forall r :: r in s.open ==> BatchSound(s, s.open[r]);
  }

  // The moves of one replica among those of others

  predicate By(m: Move, me: nat) {
    !m.Insert? && m.replica == me
  }

  /** The moves that replica me made, in order. */
  ghost function Own(moves: seq<Move>, me: nat): seq<Move> {
    if moves == [] then []
    else Own(moves[..|moves| - 1], me) + (if By(moves[|moves| - 1], me) then [moves[|moves| - 1]] else [])
  }

  lemma OwnNone(me: nat)
    ensures Own([], me) == []
  {
  }

  lemma OwnSnoc(moves: seq<Move>, m: Move, me: nat)
    ensures Own(moves + [m], me) == Own(moves, me) + (if By(m, me) then [m] else [])
  {
    assert (moves + [m])[..|moves|] == moves;
  }

  lemma {:induction false} OwnConcat(m: seq<Move>, n: seq<Move>, me: nat)
    ensures Own(m + n, me) == Own(m, me) + Own(n, me)
  {
    if n == [] {
      assert m + n == m;
    } else {
      assert m + n == (m + n[..|n| - 1]) + [n[|n| - 1]];
      OwnSnoc(m + n[..|n| - 1], n[|n| - 1], me);
      OwnConcat(m, n[..|n| - 1], me);
    }
  }

  /** A move of others leaves my batch alone, and only adds to the log and to the marks. */
  lemma OthersLeaveMine(s: Sys, m: Move, me: nat)
    requires Enabled(s, m) && !By(m, me)
    ensures var after := Apply(s, m);
      && (me in after.open <==> me in s.open)
      && (me in s.open ==> after.open[me] == s.open[me])
      && s.log <= after.log && s.processed <= after.processed
  {
  }

  ghost function Unprocessed(s: Sys): set<nat> {
    Ids(s.rows) - s.processed
  }

  lemma {:induction false} SortedCardinality(rows: seq<Row>)
    requires Sorted(rows)
    ensures |Ids(rows)| == |rows|
  {
    if rows != [] {
      var front, last := rows[..|rows| - 1], rows[|rows| - 1];
      SortedCardinality(front);
      assert Ids(rows) == Ids(front) + {last.id} by {
        forall id | id in Ids(rows) ensures id in Ids(front) + {last.id} {
          var i :| 0 <= i < |rows| && rows[i].id == id;
          assert i < |front| ==> front[i].id == id;
        }
        forall id | id in Ids(front) ensures id in Ids(rows) {
          var i :| 0 <= i < |front| && front[i].id == id;
          assert rows[i].id == id;
        }
      }
      assert last.id !in Ids(front);
    }
  }

  /** A successful drain lowers the number of unprocessed rows by the size of its batch. */
  lemma CommitDrains(s: Sys, r: nat)
    requires Safe(s) && Enabled(s, Commit(r))
    ensures |Unprocessed(Apply(s, Commit(r)))| == |Unprocessed(s)| - |s.open[r].rows|
  {
    var b := s.open[r];
    assert BatchSound(s, b);
    SortedCardinality(b.rows);
    forall id | id in Ids(b.rows) ensures id in Unprocessed(s) {
      var i :| 0 <= i < |b.rows| && b.rows[i].id == id;
      assert b.rows[i] in s.rows;
    }
    assert Unprocessed(Apply(s, Commit(r))) == Unprocessed(s) - Ids(b.rows);
  }
}
