/** One relay, with new rows getting larger ids: what is published appears in the order of the outbox. */
module RelayOrder {
  import opened Schema
  import opened Relay

  /** The log without repetitions: each row at its first publication. */
  ghost function First(log: seq<Row>): seq<Row> {
    if log == [] then []
    else
      var front := log[..|log| - 1];
      First(front) + (if log[|log| - 1] in front then [] else [log[|log| - 1]])
  }

  lemma {:induction false} FirstMembers(log: seq<Row>, x: Row)
    ensures x in First(log) <==> x in log
  {
    if log != [] {
      var front := log[..|log| - 1];
      FirstMembers(front, x);
      assert log == front + [log[|log| - 1]];
    }
  }

  lemma FirstAppend(log: seq<Row>, x: Row)
    ensures First(log + [x]) == if x in log then First(log) else First(log) + [x]
  {
    assert (log + [x])[..|log|] == log;
  }

  /** The first p rows are processed; the first q rows, and no others, have been published. */
  ghost predicate Aligned(s: Sys, me: nat, p: nat, q: nat) {
    && Sorted(s.rows)
    && p <= q <= |s.rows| && q <= p + BATCH_LIMIT
    && s.processed == Ids(s.rows[..p])
    && First(s.log) == s.rows[..q]
    && s.open.Keys <= {me}
    && (me in s.open ==>
          var b := s.open[me];
          && b.sent <= |b.rows| <= BATCH_LIMIT && p + b.sent <= q
          && p + |b.rows| <= |s.rows| && b.rows == s.rows[p..p + |b.rows|])
  }

  ghost predicate InOrder(s: Sys, me: nat) {
    exists p, q :: Aligned(s, me, p, q)
  }

  /** The row's id is above every id that is published, or locked and therefore about to be. */
  ghost predicate InTime(s: Sys, me: nat, row: Row) {
    && (forall i :: 0 <= i < |s.log| ==> s.log[i].id < row.id)
    && (me in s.open ==> forall i :: 0 <= i < |s.open[me].rows| ==> s.open[me].rows[i].id < row.id)
  }

  /** A move of the one relay, or the commit of a row that comes in time. */
  ghost predicate Orderly(s: Sys, me: nat, m: Move) {
    && Enabled(s, m)
    && match m
       case Insert(row) => InTime(s, me, row)
       case Begin(r, _) => r == me
       case Publish(r) => r == me
       case PublishUnacknowledged(r) => r == me
       case Abort(r) => r == me
       case Commit(r) => r == me
  }

  lemma SortedPrefix(rows: seq<Row>, p: nat, i: nat)
    requires Sorted(rows) && p <= |rows| && i < |rows|
    ensures rows[i].id in Ids(rows[..p]) <==> i < p
  {
    if i < p {
      assert rows[..p][i] == rows[i];
    }
  }

  lemma {:induction false} NothingLocked(rows: seq<Row>, n: nat, p: nat)
    requires Sorted(rows) && p <= |rows| && n <= |rows|
    ensures Available(rows[..n], Ids(rows[..p]), map[]) == if n <= p then [] else rows[p..n]
  {
    hide Sorted, Ids;
    if n > 0 {
      NothingLocked(rows, n - 1, p);
      SortedPrefix(rows, p, n - 1);
      assert rows[..n][..n - 1] == rows[..n - 1] && rows[..n][n - 1] == rows[n - 1];
      assert p <= n - 1 ==> rows[p..n] == rows[p..n - 1] + [rows[n - 1]];
    }
  }

  /** With no drain open, the batch of the one relay is the next stretch of the outbox. */
  lemma FreeIsSuffix(s: Sys, me: nat, p: nat, q: nat)
    requires Aligned(s, me, p, q) && me !in s.open
    ensures Available(s.rows, s.processed, s.open) == s.rows[p..]
  {
    assert s.open == map[];
    assert s.rows[..|s.rows|] == s.rows;
    NothingLocked(s.rows, |s.rows|, p);
  }

  lemma BeginAligned(s: Sys, me: nat, size: nat, p: nat, q: nat)
    requires Aligned(s, me, p, q) && Enabled(s, Begin(me, size))
    ensures Aligned(Apply(s, Begin(me, size)), me, p, q)
  {
    FreeIsSuffix(s, me, p, q);
    assert s.rows[p..][..size] == s.rows[p..p + size];
  }

  lemma FirstExtends(rows: seq<Row>, log: seq<Row>, k: nat, q: nat)
    requires Sorted(rows) && k <= q <= |rows| && k < |rows| && First(log) == rows[..q]
    ensures First(log + [rows[k]]) == if k == q then rows[..q + 1] else rows[..q]
  {
    FirstAppend(log, rows[k]);
    FirstMembers(log, rows[k]);
    if k < q {
      assert rows[..q][k] == rows[k];
    } else {
      assert forall i :: 0 <= i < q ==> rows[..q][i].id < rows[k].id;
      assert rows[..q + 1] == rows[..q] + [rows[k]];
    }
  }

  lemma PublishAligned(s: Sys, me: nat, p: nat, q: nat)
    requires Aligned(s, me, p, q) && Enabled(s, Publish(me))
    ensures var q' := if p + s.open[me].sent == q then q + 1 else q;
      Aligned(Apply(s, Publish(me)), me, p, q') && Aligned(Apply(s, PublishUnacknowledged(me)), me, p, q')
  {
    hide First, Sorted;
    var k := p + s.open[me].sent;
    assert s.open[me].rows[s.open[me].sent] == s.rows[k];
    FirstExtends(s.rows, s.log, k, q);
  }

  lemma CommitAligned(s: Sys, me: nat, p: nat, q: nat)
    requires Aligned(s, me, p, q) && Enabled(s, Commit(me))
    ensures Aligned(Apply(s, Commit(me)), me, p + |s.open[me].rows|, q)
  {
    var n := |s.open[me].rows|;
    assert s.rows[..p + n] == s.rows[..p] + s.open[me].rows;
    IdsConcat(s.rows[..p], s.open[me].rows);
  }

  lemma IdsConcat(a: seq<Row>, b: seq<Row>)
    ensures Ids(a + b) == Ids(a) + Ids(b)
  {
    forall id | id in Ids(a) + Ids(b) ensures id in Ids(a + b) {
      if id in Ids(a) {
        var i :| 0 <= i < |a| && a[i].id == id;
        assert (a + b)[i].id == id;
      } else {
        var i :| 0 <= i < |b| && b[i].id == id;
        assert (a + b)[|a| + i].id == id;
      }
    }
  }

  lemma IdsNone()
    ensures Ids([]) == {}
  {
  }

  lemma IdsSnoc(rows: seq<Row>, row: Row)
    ensures Ids(rows + [row]) == Ids(rows) + {row.id}
  {
    IdsConcat(rows, [row]);
    assert [row][0].id in Ids([row]);
  }

  /** A row in time goes behind every published and every locked row. */
  lemma InTimePosition(s: Sys, me: nat, row: Row, p: nat, q: nat)
    requires Aligned(s, me, p, q) && row.id !in Ids(s.rows) && InTime(s, me, row)
    ensures q <= Position(s.rows, row.id) <= |s.rows|
    ensures me in s.open ==> p + |s.open[me].rows| <= Position(s.rows, row.id)
  {
    PositionSplits(s.rows, row.id);
    if q > 0 {
      FirstMembers(s.log, s.rows[q - 1]);
      assert s.rows[..q][q - 1] == s.rows[q - 1];
      assert s.rows[q - 1] in s.log;
    }
    if me in s.open && |s.open[me].rows| > 0 {
      var last := |s.open[me].rows| - 1;
      assert s.open[me].rows[last] == s.rows[p + last];
    }
  }

  lemma InsertedKeeps(rows: seq<Row>, row: Row, i: nat, j: nat)
    requires i <= j <= Position(rows, row.id) <= |rows|
    ensures |Inserted(rows, row)| == |rows| + 1 && Inserted(rows, row)[i..j] == rows[i..j]
  {
  }

  lemma InsertAligned(s: Sys, me: nat, row: Row, p: nat, q: nat)
    requires Aligned(s, me, p, q) && Orderly(s, me, Insert(row))
    ensures Aligned(Apply(s, Insert(row)), me, p, q)
  {
    hide Inserted, First;
    InTimePosition(s, me, row, p, q);
    InsertedIsSorted(s.rows, row);
    InsertedKeeps(s.rows, row, 0, p);
    InsertedKeeps(s.rows, row, 0, q);
    if me in s.open {
      InsertedKeeps(s.rows, row, p, p + |s.open[me].rows|);
    }
  }

  lemma MoveKeepsOrder(s: Sys, me: nat, m: Move)
    requires InOrder(s, me) && Orderly(s, me, m)
    ensures InOrder(Apply(s, m), me)
  {
    hide Apply, Aligned;
    var p, q :| Aligned(s, me, p, q);
    match m
    case Insert(row) => InsertAligned(s, me, row, p, q);
    case Begin(_, size) => BeginAligned(s, me, size, p, q);
    case Publish(_) => PublishAligned(s, me, p, q);
    case PublishUnacknowledged(_) => EnabledTogether(s, me); PublishAligned(s, me, p, q);
    case Abort(_) => AbortAligned(s, me, p, q);
    case Commit(_) => CommitAligned(s, me, p, q);
  }

  lemma AbortAligned(s: Sys, me: nat, p: nat, q: nat)
    requires Aligned(s, me, p, q) && Enabled(s, Abort(me))
    ensures Aligned(Apply(s, Abort(me)), me, p, q)
  {
  }

  ghost predicate OrderlyPath(s: Sys, me: nat, moves: seq<Move>, after: Sys)
    decreases |moves|
  {
    if moves == [] then after == s
    else Orderly(s, me, moves[0]) && OrderlyPath(Apply(s, moves[0]), me, moves[1..], after)
  }

  lemma {:induction false} PathKeepsOrder(s: Sys, me: nat, moves: seq<Move>, after: Sys)
    requires InOrder(s, me) && OrderlyPath(s, me, moves, after)
    ensures InOrder(after, me)
    decreases |moves|
  {
    hide Apply, Enabled, InOrder;
    if moves != [] {
      MoveKeepsOrder(s, me, moves[0]);
      PathKeepsOrder(Apply(s, moves[0]), me, moves[1..], after);
    }
  }

  lemma StartInOrder(me: nat)
    ensures InOrder(Start(), me)
  {
    assert Aligned(Start(), me, 0, 0);
  }

  /** First publications follow the outbox, and at most 50 rows are published but not yet marked. */
  lemma PublishedInOrder(me: nat, moves: seq<Move>, s: Sys)
    requires OrderlyPath(Start(), me, moves, s)
    ensures First(s.log) <= s.rows
    ensures |Ids(s.log) - s.processed| <= BATCH_LIMIT
  {
    StartInOrder(me);
    PathKeepsOrder(Start(), me, moves, s);
    var p, q :| Aligned(s, me, p, q);
    LagBound(s, me, p, q);
  }

  /** Where no one else acts, a path of the relay is orderly. */
  lemma {:induction false} OwnPathIsOrderly(s: Sys, me: nat, moves: seq<Move>, after: Sys)
    requires Path(s, moves, after) && forall i :: 0 <= i < |moves| ==> By(moves[i], me)
    ensures OrderlyPath(s, me, moves, after)
    decreases |moves|
  {
    hide Apply, Enabled;
    if moves != [] {
      assert By(moves[0], me);
      assert forall i :: 0 <= i < |moves[1..]| ==> moves[1..][i] == moves[i + 1];
      OwnPathIsOrderly(Apply(s, moves[0]), me, moves[1..], after);
    }
  }

  lemma LagBound(s: Sys, me: nat, p: nat, q: nat)
    requires Aligned(s, me, p, q)
    ensures |Ids(s.log) - s.processed| <= BATCH_LIMIT
  {
    forall id | id in Ids(s.log) ensures id in Ids(s.rows[..q]) {
      var i :| 0 <= i < |s.log| && s.log[i].id == id;
      FirstMembers(s.log, s.log[i]);
      assert s.log[i] in s.rows[..q];
    }
    assert s.rows[..q] == s.rows[..p] + s.rows[p..q];
    IdsConcat(s.rows[..p], s.rows[p..q]);
    SortedCardinality(s.rows[p..q]);
    CardinalityMonotone(Ids(s.log) - s.processed, Ids(s.rows[p..q]));
  }

  lemma CardinalityMonotone(a: set<nat>, b: set<nat>)
    requires a <= b
    ensures |a| <= |b|
  {
    assert b == a + (b - a);
  }

  // Rows that commit late

  function Publishes(me: nat, k: nat): seq<Move> {
    seq(k, _ => Publish(me))
  }

  lemma {:induction false} PublishesSend(s: Sys, me: nat, k: nat, after: Sys)
    requires Path(s, Publishes(me, k), after) && me in s.open && s.open[me].sent <= |s.open[me].rows|
    ensures var b := s.open[me];
      b.sent + k <= |b.rows|
      && after == s.(log := s.log + b.rows[b.sent..b.sent + k], open := s.open[me := Batch(b.rows, b.sent + k)])
    decreases k
  {
    var b := s.open[me];
    if k > 0 {
      assert Publishes(me, k)[1..] == Publishes(me, k - 1);
      var sent := Apply(s, Publish(me));
      PublishesSend(sent, me, k - 1, after);
      assert b.rows[b.sent..b.sent + k] == [b.rows[b.sent]] + b.rows[b.sent + 1..b.sent + k];
    }
  }

  lemma {:induction false} PublishesEnabled(s: Sys, me: nat, k: nat) returns (after: Sys)
    requires me in s.open && s.open[me].sent + k <= |s.open[me].rows|
    ensures Path(s, Publishes(me, k), after)
    decreases k
  {
    if k == 0 {
      after := s;
    } else {
      assert Publishes(me, k)[1..] == Publishes(me, k - 1);
      after := PublishesEnabled(Apply(s, Publish(me)), me, k - 1);
    }
  }

  /** In a log that keeps the order, whatever stands before a published row is published too. */
  lemma PrefixIsClosed(log: seq<Row>, rows: seq<Row>, early: Row, late: Row)
    requires Sorted(rows) && First(log) <= rows && early in rows && late in log && early.id < late.id
    ensures early in log
  {
    FirstMembers(log, late);
    FirstMembers(log, early);
    var i :| 0 <= i < |First(log)| && First(log)[i] == late;
    var j :| 0 <= j < |rows| && rows[j] == early;
    assert rows[i] == late;
    assert First(log)[j] == early;
  }

  lemma LogInTable(s: Sys, me: nat)
    requires InOrder(s, me)
    ensures Sorted(s.rows) && Subset(s.log, s.rows)
    ensures me in s.open ==> s.open[me].sent <= |s.open[me].rows|
    ensures me in s.open ==> Subset(s.open[me].rows, s.rows)
    ensures me in s.open ==> forall j :: 0 <= j < s.open[me].sent ==> s.open[me].rows[j] in s.log
  {
    var p: nat, q: nat :| Aligned(s, me, p, q);
    forall i | 0 <= i < |s.log| ensures s.log[i] in s.rows {
      FirstMembers(s.log, s.log[i]);
      assert s.log[i] in s.rows[..q];
    }
    if me in s.open {
      forall j | 0 <= j < |s.open[me].rows| ensures s.open[me].rows[j] in s.rows {
        assert s.open[me].rows[j] == s.rows[p + j];
      }
      forall j | 0 <= j < s.open[me].sent ensures s.open[me].rows[j] in s.log {
        assert s.open[me].rows[j] == s.rows[p + j] == s.rows[..q][p + j];
        FirstMembers(s.log, s.rows[p + j]);
      }
    }
  }

  /** Publishing the locked rows up to j, with a late row in the table that belongs before row j. */
  lemma LockedRowOvertakes(s: Sys, me: nat, row: Row, j: nat) returns (moves: seq<Move>, after: Sys)
    requires InOrder(s, me) && me in s.open && s.open[me].sent <= j < |s.open[me].rows|
    requires row.id !in Ids(s.rows) && row.id < s.open[me].rows[j].id
    ensures OrderlyPath(Apply(s, Insert(row)), me, moves, after) && !(First(after.log) <= after.rows)
  {
    hide InOrder, Inserted;
    LogInTable(s, me);
    InsertedIsSorted(s.rows, row);
    var inserted, b := Apply(s, Insert(row)), s.open[me];
    moves := Publishes(me, j + 1 - b.sent);
    after := PublishesEnabled(inserted, me, j + 1 - b.sent);
    PublishesSend(inserted, me, j + 1 - b.sent, after);
    OwnPathIsOrderly(inserted, me, moves, after);
    assert after.log[|s.log| + j - b.sent] == b.rows[j];
    forall i | 0 <= i < |after.log| ensures after.log[i] != row {
      assert after.log[i] in s.rows by {
        assert after.log[i] == if i < |s.log| then s.log[i] else b.rows[b.sent + i - |s.log|];
      }
    }
    if First(after.log) <= after.rows {
      PrefixIsClosed(after.log, after.rows, row, b.rows[j]);
    }
  }

  /** Some moves of the relay alone, perhaps none, spoil the order. */
  lemma LateRowIsOvertaken(s: Sys, me: nat, row: Row) returns (moves: seq<Move>, after: Sys)
    requires InOrder(s, me) && row.id !in Ids(s.rows) && !InTime(s, me, row)
    ensures OrderlyPath(Apply(s, Insert(row)), me, moves, after) && !(First(after.log) <= after.rows)
  {
    hide InOrder, Inserted;
    LogInTable(s, me);
    InsertedIsSorted(s.rows, row);
    if i :| 0 <= i < |s.log| && row.id <= s.log[i].id {
      moves, after := [], Apply(s, Insert(row));
      assert s.log[i] in s.rows;
      if First(s.log) <= after.rows {
        PrefixIsClosed(s.log, after.rows, row, s.log[i]);
      }
    } else {
      var b := s.open[me];
      var j :| 0 <= j < |b.rows| && row.id <= b.rows[j].id;
      assert b.rows[j] in s.rows;
      moves, after := LockedRowOvertakes(s, me, row, j);
    }
  }

  /** Whatever the relay does, and whatever rows come in time, the published order is that of the outbox. */
  ghost predicate OrderedForGood(s: Sys, me: nat) {
    forall moves, after :: OrderlyPath(s, me, moves, after) ==> First(after.log) <= after.rows
  }

  /**
   * The assumption on ids is needed, and no weaker one will do: whatever the relay does after a row has
   * committed, the published order stays a prefix of the outbox, exactly when the row comes in time.
   */
  lemma LateRowKeepsOrderIff(s: Sys, me: nat, row: Row)
    requires InOrder(s, me) && row.id !in Ids(s.rows)
    ensures InTime(s, me, row) <==> OrderedForGood(Apply(s, Insert(row)), me)
  {
    hide InOrder, InTime, OrderlyPath, Apply;
    if InTime(s, me, row) {
      forall moves, after | OrderlyPath(Apply(s, Insert(row)), me, moves, after)
        ensures First(after.log) <= after.rows
      {
        InsertKeepsOrder(s, me, row);
        PathKeepsOrder(Apply(s, Insert(row)), me, moves, after);
        OrderIsPrefix(after, me);
      }
    } else {
      var moves, after := LateRowIsOvertaken(s, me, row);
    }
  }

  lemma InsertKeepsOrder(s: Sys, me: nat, row: Row)
    requires InOrder(s, me) && row.id !in Ids(s.rows) && InTime(s, me, row)
    ensures InOrder(Apply(s, Insert(row)), me)
  {
    MoveKeepsOrder(s, me, Insert(row));
  }

  lemma OrderIsPrefix(s: Sys, me: nat)
    requires InOrder(s, me)
    ensures First(s.log) <= s.rows
  {
  }

  /** A reachable case: a row above everything published, of which there is nothing, is overtaken by a locked one. */
  lemma LockedRowOvertakesLateRow(me: nat, e: Event) returns (locked: Sys, s: Sys)
    ensures var early, late := Row(1, e), Row(3, e);
      && OrderlyPath(Start(), me, [Insert(late), Begin(me, 1)], locked) && locked.log == []
      && Path(locked, [Insert(early), Publish(me)], s)
      && s.log == [late] && s.rows == [early, late] && !(First(s.log) <= s.rows)
  {
    var early, late := Row(1, e), Row(3, e);
    var one := Sys([late], {}, [], map[]);
    locked := one.(open := map[me := Batch([late], 0)]);
    var both := locked.(rows := [early, late]);
    s := Sys([early, late], {}, [late], map[me := Batch([late], 1)]);
    assert Apply(Start(), Insert(late)) == one;
    assert Available([late], {}, map[]) == [late] by {
      assert [late][..0] == [];
    }
    assert Apply(one, Begin(me, 1)) == locked;
    assert [Insert(late), Begin(me, 1)][1..] == [Begin(me, 1)] && [Begin(me, 1)][1..] == [];
    assert Position([late], early.id) == 0 by {
      assert [late][..0] == [] && Position([], early.id) == 0;
    }
    assert Apply(locked, Insert(early)) == both;
    assert Apply(both, Publish(me)) == s;
    assert [Insert(early), Publish(me)][1..] == [Publish(me)] && [Publish(me)][1..] == [];
    assert First([late]) == [late] by {
      assert [late][..0] == [];
    }
  }
}
