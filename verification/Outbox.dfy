/**
 * drainOnce of internal/outbox/outbox.go, statement by statement, while services commit rows and other
 * relays drain. Each drain is proved to be a path of the relay system of Relay, so what holds along
 * paths holds of any number of these programs.
 */
module Outbox {
  import opened Relay
  import opened RelayOrder

  /** A drain that locks size rows, publishes k of them and ends with the given move. */
  function DrainOf(me: nat, size: nat, k: nat, last: Move): seq<Move> {
    [Begin(me, size)] + Publishes(me, k) + [last]
  }

  /** How the publishing loop ends early. */
  predicate Cuts(me: nat, last: Move) {
    last == Abort(me) || last == PublishUnacknowledged(me)
  }

  /** How a drain can end that reports an error. */
  predicate Stops(me: nat, last: Move) {
    Cuts(me, last) || last == Commit(me)
  }

  /** A failed drain: nothing was locked, or part of the batch was published, or all of it was committed. */
  ghost predicate BrokenDrain(own: seq<Move>, me: nat, full: nat) {
    || own == []
    || exists size, k, last ::
         own == DrainOf(me, size, k, last) && Stops(me, last) && (last == Commit(me) ==> size == k == full)
  }

  ghost predicate Alone(moves: seq<Move>, me: nat) {
    forall i :: 0 <= i < |moves| ==> By(moves[i], me)
  }

  /** The batch that the query is after. */
  function Next(s: Sys): seq<Row> {
    Take(Available(s.rows, s.processed, s.open))
  }

  /** The whole next batch has been published and marked. */
  ghost predicate Drained(s: Sys, after: Sys) {
    after.log == s.log + Next(s) && after.processed == s.processed + Ids(Next(s))
  }

  /** With no one else at work: a first part of the batch is published, and the marks are all set or not at all. */
  ghost predicate DrainedAlone(s: Sys, after: Sys, failed: bool) {
    && after.rows == s.rows && after.open == s.open
    && (exists k :: 0 <= k <= |Next(s)| && after.log == s.log + Next(s)[..k])
    && (Drained(s, after) || (failed && after.processed == s.processed))
  }

  /** How many of the first n operations on the database or the broker fail. */
  ghost function Strikes(faults: nat -> bool, n: nat): nat {
    if n == 0 then 0 else Strikes(faults, n - 1) + (if faults(n - 1) then 1 else 0)
  }

  class Outbox {
    /** Which operations on the database and the broker fail; only Fault reads it. */
    const faults: nat -> bool
    /** The operations made so far. */
    var trips: nat

    var rows: seq<Row>
    var processed: set<nat>
    var log: seq<Row>
    var open: map<nat, Batch>

    function State(): Sys
      reads this
    {
      Sys(rows, processed, log, open)
    }

    /** Since operation `from` nothing has failed, or, if `failed`, one operation has. */
    ghost predicate Blames(from: nat, failed: bool)
      reads this`trips
    {
      Strikes(faults, trips) == Strikes(faults, from) + (if failed then 1 else 0)
    }

    constructor (faults: nat -> bool)
      ensures State() == Start() && Safe(State()) && this.faults == faults && trips == 0
    {
      this.faults, trips := faults, 0;
      rows, processed, log, open := [], {}, [], map[];
    }

    /** An operation on the database or the broker, which fails if the schedule says so. */
    method Fault() returns (failed: bool)
      modifies this`trips
      ensures Blames(old(trips), failed)
    {
      failed := faults(trips);
      trips := trips + 1;
    }

    /** What the environment does beside failing. */
    method Chance() returns (b: bool) {
      b := *;
    }

    /** Between two statements services commit new rows, and other relays move on. */
    method Others(me: nat) returns (ghost moves: seq<Move>)
      requires Safe(State())
      modifies this
      ensures Safe(State())
      ensures Path(old(State()), moves, State()) && Own(moves, me) == []
      ensures me in open <==> me in old(open)
      ensures me in open ==> open[me] == old(open)[me]
      ensures old(log) <= log && old(processed) <= processed && trips == old(trips)
    {
      hide Safe, Path, Enabled, Apply, Own;
      moves := [];
      ghost var start := State();
      PathNone(start);
      OwnNone(me);
      var n: int := *;
      for i := 0 to if n < 0 then 0 else n
        invariant Safe(State())
        invariant Path(start, moves, State()) && Own(moves, me) == []
        invariant me in open <==> me in start.open
        invariant me in open ==> open[me] == start.open[me]
        invariant start.log <= log && start.processed <= processed && trips == old(trips)
      {
        var m: Move := *;
        if !By(m, me) && Enabled(State(), m) {
          MoveKeepsSafe(State(), m);
          OthersLeaveMine(State(), m, me);
          PathSnoc(start, moves, State(), m);
          OwnSnoc(moves, m, me);
          moves := moves + [m];
          var after := Apply(State(), m);
          rows, processed, log, open := after.rows, after.processed, after.log, after.open;
        }
      }
    }

    /**
     * The locking query. A failure while rows are being read leaves a shorter batch and an aborted
     * transaction, because the caller does not look at rows.Err().
     */
    method Select(me: nat) returns (failed: bool, broken: bool, ghost size: nat)
      requires Safe(State()) && me !in open
      modifies this`open, this`trips
      ensures Safe(State())
      ensures Blames(old(trips), failed || broken) && (failed ==> !broken)
      ensures failed ==> State() == old(State())
      ensures !failed ==> Enabled(old(State()), Begin(me, size)) && State() == Apply(old(State()), Begin(me, size))
      ensures !failed ==> me in open && open[me] == Batch(old(Next(State()))[..size], 0)
      ensures !failed && !broken ==> size == |old(Next(State()))|
    {
      hide Safe;
      broken, size := false, 0;
      failed := Fault();
      if !failed {
        var free := Available(rows, processed, open);
        var found := |Take(free)|;
        broken := Fault();
        if broken {
          var read: int := *;
          found := if 0 <= read < found then read else found;
        }
        size := found;
        MoveKeepsSafe(State(), Begin(me, size));
        assert free[..size] == Take(free)[..size];
        open := open[me := Batch(free[..found], 0)];
      }
    }

    /** The broker may have stored the record although the producer saw an error. */
    method Produce(me: nat) returns (failed: bool, ghost made: Move)
      requires Safe(State()) && me in open && open[me].sent < |open[me].rows|
      modifies this`open, this`log, this`trips
      ensures Safe(State()) && Blames(old(trips), failed)
      ensures made == if !failed then Publish(me) else if log == old(log) then Abort(me) else PublishUnacknowledged(me)
      ensures Enabled(old(State()), made) && State() == Apply(old(State()), made)
    {
      hide Safe;
      failed := Fault();
      var stored := Chance();
      made := if !failed then Publish(me) else if stored then PublishUnacknowledged(me) else Abort(me);
      MoveKeepsSafe(State(), made);
      var row := open[me].rows[open[me].sent];
      if !failed || stored {
        log := log + [row];
      }
      open := if failed then open - {me} else open[me := Batch(open[me].rows, open[me].sent + 1)];
    }

    method Rollback(me: nat)
      requires Safe(State()) && me in open
      modifies this`open
      ensures Safe(State())
      ensures Enabled(old(State()), Abort(me)) && State() == Apply(old(State()), Abort(me))
    {
      hide Safe;
      MoveKeepsSafe(State(), Abort(me));
      open := open - {me};
    }

    /** The commit, with the marks set by then. Its acknowledgement may be lost; after an error it rolls back. */
    method EndTransaction(me: nat, marks: set<nat>, broken: bool) returns (failed: bool, ghost made: Move)
      requires Safe(State()) && me in open && open[me].sent == |open[me].rows| && marks == Ids(open[me].rows)
      modifies this`open, this`processed, this`trips
      ensures Safe(State())
      ensures Blames(old(trips), failed && !broken)
      ensures made == Commit(me) || (failed && made == Abort(me))
      ensures broken ==> made == Abort(me)
      ensures Enabled(old(State()), made) && State() == Apply(old(State()), made)
    {
      hide Safe;
      failed := broken;
      if !broken {
        failed := Fault();
      }
      var lost := Chance();
      var committed := !broken && (!failed || lost);
      made := if committed then Commit(me) else Abort(me);
      MoveKeepsSafe(State(), made);
      if committed {
        processed := processed + marks;
      }
      open := open - {me};
    }

    /** One turn of the publishing loop. Payload and schema may fail to resolve before the record is produced. */
    method PublishNext(me: nat) returns (failed: bool, ghost moves: seq<Move>)
      requires Safe(State()) && me in open && open[me].sent < |open[me].rows|
      modifies this
      ensures Safe(State()) && Path(old(State()), moves, State())
      ensures old(log) <= log && old(processed) <= processed
      ensures Blames(old(trips), failed)
      ensures !failed ==> Own(moves, me) == [Publish(me)]
      ensures !failed ==> me in open && open[me] == Batch(old(open[me].rows), old(open[me].sent) + 1)
      ensures !failed ==> old(open[me].rows[open[me].sent]) in log[|old(log)|..]
      ensures failed ==> me !in open && exists last :: Own(moves, me) == [last] && Cuts(me, last)
    {
      hide Safe, Path, Own;
      ghost var start := State();
      moves := Others(me);
      var row := open[me].rows[open[me].sent];
      ghost var middle, made := State(), Abort(me);
      failed := Fault();
      if failed {
        Rollback(me);
      } else {
        failed, made := Produce(me);
        assert !failed ==> log[|old(log)|..][|middle.log| - |old(log)|] == row;
      }
      PathSnoc(start, moves, middle, made);
      OwnSnoc(moves, made, me);
      moves := moves + [made];
    }

    /** The loop of drainOnce: publishes the locked rows one by one and collects their ids. */
    method PublishAll(me: nat) returns (failed: bool, ids: set<nat>, ghost moves: seq<Move>)
      requires Safe(State()) && me in open && open[me].sent == 0
      modifies this
      ensures Safe(State()) && Path(old(State()), moves, State())
      ensures old(log) <= log && old(processed) <= processed
      ensures Blames(old(trips), failed)
      ensures !failed ==> Own(moves, me) == Publishes(me, |old(open[me].rows)|) && ids == Ids(old(open[me].rows))
      ensures !failed ==> me in open && open[me] == Batch(old(open[me].rows), |old(open[me].rows)|)
      ensures !failed ==> Subset(old(open[me].rows), log[|old(log)|..])
      ensures failed ==> me !in open && exists k, last :: Own(moves, me) == Publishes(me, k) + [last] && Cuts(me, last)
    {
      hide Safe, Path, Enabled, Apply, Own, Ids, Cuts;
      ghost var start := State();
      var batch := open[me].rows;
      failed, ids, moves := false, {}, [];
      PathNone(start);
      OwnNone(me);
      IdsNone();
      for i := 0 to |batch|
        invariant Safe(State()) && Path(start, moves, State())
        invariant start.log <= log && start.processed <= processed
        invariant me in open && open[me] == Batch(batch, i)
        invariant Own(moves, me) == Publishes(me, i) && ids == Ids(batch[..i])
        invariant Subset(batch[..i], log[|start.log|..])
        invariant !failed && Blames(old(trips), false)
      {
        ghost var middle, more := State(), [];
        failed, more := PublishNext(me);
        PathConcat(start, moves, middle, more, State());
        OwnConcat(moves, more, me);
        moves := moves + more;
        if failed {
          return;
        }
        assert Publishes(me, i + 1) == Publishes(me, i) + [Publish(me)];
        assert batch[..i + 1] == batch[..i] + [batch[i]];
        IdsSnoc(batch[..i], batch[i]);
        SuffixKeeps(batch[..i], start.log, middle.log, log);
        SuffixHas(batch[i], start.log, middle.log, log);
        ids := ids + {batch[i].id};
      }
      assert batch[..|batch|] == batch;
    }

    /** What drainOnce does with the rows it has locked. */
    method DrainLocked(me: nat, broken: bool) returns (published: nat, failed: bool, ghost moves: seq<Move>)
      requires Safe(State()) && me in open && open[me].sent == 0
      modifies this
      ensures Safe(State()) && me !in open && Path(old(State()), moves, State())
      ensures old(log) <= log
      ensures Blames(old(trips), true) || Blames(old(trips), false)
      ensures failed <==> broken || Blames(old(trips), true)
      ensures !failed ==> !broken && published == |old(open[me].rows)|
      ensures !failed ==> Own(moves, me) == Publishes(me, published) + [Commit(me)]
      ensures !failed ==> Subset(old(open[me].rows), log[|old(log)|..]) && Ids(old(open[me].rows)) <= processed
      ensures failed ==> exists k, last :: Own(moves, me) == Publishes(me, k) + [last] && Stops(me, last)
                           && (last == Commit(me) ==> k == |old(open[me].rows)| && !broken)
    {
      hide Safe, Path, Own, Ids;
      ghost var start := State();
      var batch := open[me].rows;
      var ids;
      published := 0;
      failed, ids, moves := PublishAll(me);
      if failed {
        return;
      }
      ghost var middle := State();
      ghost var more := Others(me);
      PathConcat(start, moves, middle, more, State());
      OwnConcat(moves, more, me);
      SuffixKeeps(batch, start.log, middle.log, log);
      moves, middle := moves + more, State();
      ghost var made := Abort(me);
      if batch != [] {
        failed := broken;
        if !broken {
          failed := Fault();
        }
      }
      if failed {
        Rollback(me);
      } else {
        published := |batch|;
        failed, made := EndTransaction(me, ids, broken);
      }
      PathSnoc(start, moves, middle, made);
      OwnSnoc(moves, made, me);
      moves := moves + [made];
    }

    /**
     * One drain, among whatever others do meanwhile. On success it has locked, published and marked
     * exactly the batch that was next when it began; it fails iff an operation did. With no one else at work, a
     * failure leaves the marks as they were or, when only the acknowledgement of the commit was lost, all set. A
     * relay that drains alone, while services commit rows in time, keeps the published order.
     */
    method DrainOnce(me: nat) returns (published: nat, failed: bool, ghost moves: seq<Move>)
      requires Safe(State()) && me !in open
      modifies this
      ensures Safe(State()) && me !in open && Path(old(State()), moves, State())
      ensures failed <==> Strikes(faults, old(trips)) < Strikes(faults, trips)
      ensures old(log) <= log
      ensures !failed ==> published == |old(Next(State()))|
      ensures !failed ==> Own(moves, me) == DrainOf(me, published, published, Commit(me))
      ensures !failed ==> Subset(old(Next(State())), log[|old(log)|..]) && Ids(old(Next(State()))) <= processed
      ensures failed ==> BrokenDrain(Own(moves, me), me, |old(Next(State()))|)
      ensures Alone(moves, me) ==> DrainedAlone(old(State()), State(), failed)
      ensures old(InOrder(State(), me)) && (Alone(moves, me) || OrderlyPath(old(State()), me, moves, State()))
              ==> InOrder(State(), me)
    {
      hide Safe, InOrder, Path, Own, Available, Enabled, DrainedAlone, Alone, OrderlyPath, Strikes;
      ghost var start := State();
      ghost var size;
      var broken;
      published, moves := 0, [];
      PathNone(start);
      OwnNone(me);
      failed, broken, size := Select(me);
      if !failed {
        PathSnoc(start, [], start, Begin(me, size));
        OwnSnoc([], Begin(me, size), me);
        assert [] + [Begin(me, size)] == [Begin(me, size)];
        ghost var middle, more := State(), [];
        published, failed, more := DrainLocked(me, broken);
        PathConcat(start, [Begin(me, size)], middle, more, State());
        OwnConcat([Begin(me, size)], more, me);
        if failed {
          ghost var k, last :| Own(more, me) == Publishes(me, k) + [last] && Stops(me, last)
                               && (last == Commit(me) ==> k == size && !broken);
          assert [Begin(me, size)] + (Publishes(me, k) + [last]) == DrainOf(me, size, k, last);
        }
        moves := [Begin(me, size)] + more;
      }
      DrainConsequences(start, me, moves, State(), failed);
    }
  }

  lemma DrainConsequences(s: Sys, me: nat, moves: seq<Move>, after: Sys, failed: bool)
    requires Path(s, moves, after) && me !in s.open
    requires !failed ==> Own(moves, me) == DrainOf(me, |Next(s)|, |Next(s)|, Commit(me))
    requires failed ==> BrokenDrain(Own(moves, me), me, |Next(s)|)
    ensures Alone(moves, me) ==> DrainedAlone(s, after, failed)
    ensures InOrder(s, me) && (Alone(moves, me) || OrderlyPath(s, me, moves, after)) ==> InOrder(after, me)
  {
    hide InOrder, Path, Own, Next, DrainedAlone, OrderlyPath;
    if Alone(moves, me) {
      AloneIsOwn(moves, me);
      OwnPathIsOrderly(s, me, moves, after);
      if failed {
        if moves == [] {
          NothingDrained(s, after);
        } else {
          var size, k, last :| moves == DrainOf(me, size, k, last) && Stops(me, last)
                               && (last == Commit(me) ==> size == k == |Next(s)|);
          DrainEffect(s, me, size, k, last, after);
        }
      } else {
        DrainEffect(s, me, |Next(s)|, |Next(s)|, Commit(me), after);
      }
    }
    if InOrder(s, me) && OrderlyPath(s, me, moves, after) {
      PathKeepsOrder(s, me, moves, after);
    }
  }

  lemma NothingDrained(s: Sys, after: Sys)
    requires Path(s, [], after)
    ensures DrainedAlone(s, after, true)
  {
    assert after.log == s.log + Next(s)[..0];
  }

  lemma {:induction false} AloneIsOwn(moves: seq<Move>, me: nat)
    requires Alone(moves, me)
    ensures Own(moves, me) == moves
  {
    if moves != [] {
      AloneIsOwn(moves[..|moves| - 1], me);
      assert By(moves[|moves| - 1], me);
    }
  }

  /** Moves of one drain and nothing else have the effect that drainOnce has on its own. */
  lemma DrainEffect(s: Sys, me: nat, size: nat, k: nat, last: Move, after: Sys)
    requires Path(s, DrainOf(me, size, k, last), after) && me !in s.open && Stops(me, last)
    requires last == Commit(me) ==> size == k == |Next(s)|
    ensures DrainedAlone(s, after, last != Commit(me)) && DrainedAlone(s, after, true)
  {
    var moves := DrainOf(me, size, k, last);
    assert moves[0] == Begin(me, size) && moves[1..] == Publishes(me, k) + [last];
    var locked := Apply(s, Begin(me, size));
    var sent := PathSplit(locked, Publishes(me, k), [last], after);
    PublishesSend(locked, me, k, sent);
    assert [last][1..] == [];
    assert after == Apply(sent, last);
    BatchOfNext(s, size);
    LastEffect(s, me, size, k, last, sent);
  }

  lemma BatchOfNext(s: Sys, size: nat)
    requires size <= |Next(s)|
    ensures Available(s.rows, s.processed, s.open)[..size] == Next(s)[..size]
  {
  }

  lemma LastEffect(s: Sys, me: nat, size: nat, k: nat, last: Move, sent: Sys)
    requires me !in s.open && k <= size <= |Next(s)| && Stops(me, last) && Enabled(sent, last)
    requires last == Commit(me) ==> size == k == |Next(s)|
    requires sent == s.(log := s.log + Next(s)[..size][0..k], open := s.open[me := Batch(Next(s)[..size], k)])
    ensures DrainedAlone(s, Apply(sent, last), last != Commit(me)) && DrainedAlone(s, Apply(sent, last), true)
  {
    hide Next;
    var after := Apply(sent, last);
    assert Next(s)[..size][0..k] == Next(s)[..k];
    assert s.open[me := Batch(Next(s)[..size], k)] - {me} == s.open;
    if last == PublishUnacknowledged(me) {
      assert s.log + Next(s)[..k] + [Next(s)[k]] == s.log + Next(s)[..k + 1];
    }
  }

  // Clearing a backlog

  /** A successful drain with no one else at work. */
  function AfterDrain(s: Sys): Sys {
    s.(log := s.log + Next(s), processed := s.processed + Ids(Next(s)))
  }

  function AfterDrains(s: Sys, n: nat): Sys
    decreases n
  {
    if n == 0 then s else AfterDrains(AfterDrain(s), n - 1)
  }

  lemma SuccessIsAfterDrain(s: Sys, after: Sys)
    requires DrainedAlone(s, after, false)
    ensures after == AfterDrain(s)
  {
  }

  lemma {:induction false} AvailableIds(rows: seq<Row>, processed: set<nat>)
    ensures Ids(Available(rows, processed, map[])) == Ids(rows) - processed
  {
    if rows != [] {
      var front, last := rows[..|rows| - 1], rows[|rows| - 1];
      var free := Available(front, processed, map[]);
      AvailableIds(front, processed);
      assert rows == front + [last];
      IdsSnoc(front, last);
      IdsSnoc(free, last);
      assert free + [] == free;
    }
  }

  lemma SortedPart(rows: seq<Row>, n: nat)
    requires Sorted(rows) && n <= |rows|
    ensures Ids(rows[..n]) <= Ids(rows) && |Ids(rows[..n])| == n && |Ids(rows)| == |rows|
  {
    SortedCardinality(rows);
    SortedCardinality(rows[..n]);
    assert rows == rows[..n] + rows[n..];
    IdsConcat(rows[..n], rows[n..]);
  }

  lemma DrainShrinks(s: Sys)
    requires Sorted(s.rows) && s.open == map[]
    ensures |Unprocessed(AfterDrain(s))|
         == if |Unprocessed(s)| <= BATCH_LIMIT then 0 else |Unprocessed(s)| - BATCH_LIMIT
  {
    hide Ids, Sorted;
    var free := Available(s.rows, s.processed, s.open);
    AvailableIds(s.rows, s.processed);
    AvailableSound(s.rows, s.processed, s.open);
    SortedPart(free, |Next(s)|);
    assert Next(s) == free[..|Next(s)|];
    var all, taken := Unprocessed(s), Ids(Next(s));
    assert Unprocessed(AfterDrain(s)) == all - taken;
    assert |all - taken| == |all| - |taken|;
  }

  /** n unprocessed rows are gone after exactly ceil(n / 50) successful drains of a relay at work alone. */
  lemma {:induction false} DrainsClear(s: Sys, n: nat)
    requires Sorted(s.rows) && s.open == map[]
    ensures Unprocessed(AfterDrains(s, n)) == {} <==> (|Unprocessed(s)| + BATCH_LIMIT - 1) / BATCH_LIMIT <= n
    decreases n
  {
    hide AfterDrain, Unprocessed, Sorted;
    if n > 0 {
      DrainShrinks(s);
      DrainKeepsTable(s);
      DrainsClear(AfterDrain(s), n - 1);
    }
  }

  lemma DrainKeepsTable(s: Sys)
    ensures AfterDrain(s).rows == s.rows && AfterDrain(s).open == s.open
  {
  }

  /** What was published since `start` stays published since `start`. */
  lemma SuffixKeeps(part: seq<Row>, start: seq<Row>, middle: seq<Row>, log: seq<Row>)
    requires start <= middle <= log && Subset(part, middle[|start|..])
    ensures Subset(part, log[|start|..])
  {
    assert log[|start|..][..|middle| - |start|] == middle[|start|..];
  }

  lemma SuffixHas(row: Row, start: seq<Row>, middle: seq<Row>, log: seq<Row>)
    requires start <= middle <= log && row in log[|middle|..]
    ensures row in log[|start|..]
  {
    assert log[|start|..][|middle| - |start|..] == log[|middle|..];
  }
}
