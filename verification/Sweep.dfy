/** SweepExpiredHolds: no release in it can fail, the order does not matter, the count is exact. */
module Sweep {
  import opened Schema
  import opened Sequences
  import opened Sums
  import opened Effects
  import opened Invariants
  import opened Deltas
  import opened NoStuck
  import opened Safety

  /** Released by the first n ids: exactly those holds have changed, and only in their status. */
  ghost predicate HoldsSwept(db: Db, ids: seq<Uuid>, n: nat, reason: string, after: Db)
    requires n <= |ids|
  {
    && after.holds.Keys == db.holds.Keys
    && forall h :: h in db.holds ==>
         after.holds[h] == if h in ids[..n] then db.holds[h].(status := ReleasedStatus(reason)) else db.holds[h]
  }

  ghost predicate AllActive(db: Db, ids: seq<Uuid>) {
    forall i :: 0 <= i < |ids| ==> ids[i] in db.holds && db.holds[ids[i]].status.Active?
  }

  lemma {:induction false} SweepMovesHolds(db: Db, ids: seq<Uuid>, n: nat, reason: string)
    requires Tables(db) && n <= |ids| && ReleaseFirst(db, ids, n, reason).Ok?
    ensures HoldsSwept(db, ids, n, reason, ReleaseFirst(db, ids, n, reason).value)
  {
    if n > 0 {
      SweepMovesHolds(db, ids, n - 1, reason);
      assert ids[..n] == ids[..n - 1] + [ids[n - 1]];
    }
  }

  lemma {:induction false} SweepKeepsRest(db: Db, ids: seq<Uuid>, n: nat, reason: string)
    requires Tables(db) && n <= |ids| && ReleaseFirst(db, ids, n, reason).Ok?
    ensures var after := ReleaseFirst(db, ids, n, reason).value;
      && after.accounts == db.accounts && after.transactions == db.transactions && after.entries == db.entries
      && after.responses == db.responses && after.processed == db.processed
  {
    if n > 0 {
      SweepKeepsRest(db, ids, n - 1, reason);
    }
  }

  /** After the first n - 1 releases the next hold is still active, so releasing it succeeds. */
  lemma NextNeverSticks(db: Db, before: Db, ids: seq<Uuid>, n: nat, reason: string)
    requires Inv(before) && 0 < n <= |ids| && Distinct(ids) && AllActive(db, ids)
    requires HoldsSwept(db, ids, n - 1, reason, before)
    ensures Tables(before) && ReleaseSpec(before, ids[n - 1], reason).Ok?
  {
    hide Inv, ReleaseSpec;
    assert ids[n - 1] !in ids[..n - 1];
    InvReleaseNeverSticks(before, ids[n - 1], reason);
  }

  /** A release inside a sweep cannot fail. */
  lemma {:induction false} FirstNeverStick(db: Db, ids: seq<Uuid>, n: nat, reason: string)
    requires Inv(db) && n <= |ids| && Distinct(ids) && AllActive(db, ids)
    ensures Tables(db) && ReleaseFirst(db, ids, n, reason).Ok?
  {
    hide Inv, HoldsSwept, Distinct, AllActive, ReleaseSpec;
    InvTables(db);
    if n > 0 {
      FirstNeverStick(db, ids, n - 1, reason);
      SpecSweepKeepsInv(db, ids, n - 1, reason);
      SweepMovesHolds(db, ids, n - 1, reason);
      NextNeverSticks(db, ReleaseFirst(db, ids, n - 1, reason).value, ids, n, reason);
    }
  }

  lemma InvReleaseNeverSticks(db: Db, h: Uuid, reason: string)
    requires Inv(db)
    ensures Tables(db)
    ensures ReleaseSpec(db, h, reason).Ok? <==> h in db.holds && db.holds[h].status.Active?
  {
    ReleaseNeverSticks(db, h, reason);
  }

  /** In a state satisfying the invariant, a sweep of any selection commits. */
  lemma SweepNeverSticks(db: Db, now: int, ids: seq<Uuid>)
    requires Inv(db) && Selection(db, now, ids)
    ensures Tables(db) && SweepSpec(db, ids).Ok?
  {
    hide Inv;
    assert AllActive(db, ids) by {
      forall i | 0 <= i < |ids| ensures ids[i] in db.holds && db.holds[ids[i]].status.Active? {
        assert Expirable(db, now, ids[i]);
      }
    }
    FirstNeverStick(db, ids, |ids|, "expiry");
  }

  // Balances after a sweep, as a function of the holds alone

  ghost function One(h: Hold, a: Uuid): int {
    if h.status.Active? && h.accountId == a then 1 else 0
  }

  ghost function Ones(hs: map<Uuid, Hold>, a: Uuid): map<Uuid, int> {
    map h | h in hs :: One(hs[h], a)
  }

  /** The number of active holds of account a. */
  ghost function ActiveCount(hs: map<Uuid, Hold>, a: Uuid): int {
    Total(Ones(hs, a))
  }

  lemma CountPut(hs: map<Uuid, Hold>, h: Uuid, row: Hold, a: Uuid)
    ensures ActiveCount(hs[h := row], a) == ActiveCount(hs, a) + One(row, a) - (if h in hs then One(hs[h], a) else 0)
  {
    assert Ones(hs[h := row], a) == Ones(hs, a)[h := One(row, a)];
    TotalPut(Ones(hs, a), h, One(row, a));
  }

  /** What the change of the hold table says the balance row must have become. */
  ghost function Rebalanced(db: Db, hs: map<Uuid, Hold>, a: Uuid): Balance
    requires a in db.balances
  {
    var freed := ActiveSum(db.holds, a) - ActiveSum(hs, a);
    Balance(db.balances[a].available + freed, db.balances[a].held - freed,
            db.balances[a].version + ActiveCount(db.holds, a) - ActiveCount(hs, a))
  }

  lemma ReleaseRebalances(db: Db, before: Db, h: Uuid, reason: string, a: Uuid)
    requires Tables(before) && ReleaseSpec(before, h, reason).Ok?
    requires a in db.balances && before.balances.Keys == db.balances.Keys
    requires before.balances[a] == Rebalanced(db, before.holds, a)
    ensures var after := ReleaseSpec(before, h, reason).value;
      after.balances[a] == Rebalanced(db, after.holds, a)
  {
    var row := before.holds[h].(status := ReleasedStatus(reason));
    ActivePut(before.holds, h, row, a);
    CountPut(before.holds, h, row, a);
  }

  lemma {:induction false} SweepRebalances(db: Db, ids: seq<Uuid>, n: nat, reason: string)
    requires Tables(db) && n <= |ids| && ReleaseFirst(db, ids, n, reason).Ok?
    ensures var after := ReleaseFirst(db, ids, n, reason).value;
      && after.balances.Keys == db.balances.Keys
      && forall a :: a in db.balances ==> after.balances[a] == Rebalanced(db, after.holds, a)
  {
    if n > 0 {
      SweepRebalances(db, ids, n - 1, reason);
      var before := ReleaseFirst(db, ids, n - 1, reason).value;
      var after := ReleaseFirst(db, ids, n, reason).value;
      forall a | a in db.balances ensures after.balances[a] == Rebalanced(db, after.holds, a) {
        ReleaseRebalances(db, before, ids[n - 1], reason, a);
      }
    }
  }

  /** Releasing the same holds in another order gives the same balances and the same holds. */
  lemma SweepIsConfluent(db: Db, ids: seq<Uuid>, jds: seq<Uuid>)
    requires Tables(db) && SweepSpec(db, ids).Ok? && SweepSpec(db, jds).Ok?
    requires forall h :: h in ids <==> h in jds
    ensures SweepSpec(db, ids).value.holds == SweepSpec(db, jds).value.holds
    ensures SweepSpec(db, ids).value.balances == SweepSpec(db, jds).value.balances
    ensures SweepSpec(db, ids).value == SweepSpec(db, jds).value.(outbox := SweepSpec(db, ids).value.outbox)
  {
    hide ReleaseFirst, Rebalanced;
    SweepMovesHolds(db, ids, |ids|, "expiry");
    SweepMovesHolds(db, jds, |jds|, "expiry");
    assert ids[..|ids|] == ids && jds[..|jds|] == jds;
    SweepRebalances(db, ids, |ids|, "expiry");
    SweepRebalances(db, jds, |jds|, "expiry");
    SweepKeepsRest(db, ids, |ids|, "expiry");
    SweepKeepsRest(db, jds, |jds|, "expiry");
    assert SweepSpec(db, ids).value.holds == SweepSpec(db, jds).value.holds;
  }

  // Counting

  ghost function WithStatus(db: Db, status: HoldStatus): set<Uuid> {
    set h | h in db.holds && db.holds[h].status == status
  }

  /** The number a committed sweep reports is the number of holds it moved from active to expired. */
  lemma SweepCountIsExact(db: Db, now: int, ids: seq<Uuid>)
    requires Tables(db) && Selection(db, now, ids) && SweepSpec(db, ids).Ok?
    ensures var after := SweepSpec(db, ids).value;
      && WithStatus(db, Active) - WithStatus(after, Active) == WithStatus(after, Expired) - WithStatus(db, Expired)
      && |WithStatus(db, Active) - WithStatus(after, Active)| == |ids|
  {
    hide ReleaseFirst;
    var after := SweepSpec(db, ids).value;
    SweepMovesHolds(db, ids, |ids|, "expiry");
    assert ids[..|ids|] == ids;
    assert forall i :: 0 <= i < |ids| ==> Expirable(db, now, ids[i]);
    assert WithStatus(db, Active) - WithStatus(after, Active) == Elements(ids);
    assert WithStatus(after, Expired) - WithStatus(db, Expired) == Elements(ids);
    DistinctIsSet(ids);
  }

  ghost function Overdue(db: Db, now: int): set<Uuid> {
    set h | h in db.holds && db.holds[h].status.Active? && db.holds[h].expiresAt < now
  }

  lemma SweepClearsTaken(db: Db, now: int, ids: seq<Uuid>)
    requires Tables(db) && Selection(db, now, ids) && SweepSpec(db, ids).Ok?
    ensures Elements(ids) <= Overdue(db, now)
    ensures Overdue(SweepSpec(db, ids).value, now) == Overdue(db, now) - Elements(ids)
  {
    hide ReleaseFirst;
    SweepMovesHolds(db, ids, |ids|, "expiry");
    assert ids[..|ids|] == ids;
    assert forall i :: 0 <= i < |ids| ==> Expirable(db, now, ids[i]);
  }

  lemma SweepShrinks(db: Db, now: int, ids: seq<Uuid>)
    requires Tables(db) && FullSweep(db, now, ids) && SweepSpec(db, ids).Ok?
    ensures |Overdue(SweepSpec(db, ids).value, now)|
         == if |Overdue(db, now)| <= SWEEP_LIMIT then 0 else |Overdue(db, now)| - SWEEP_LIMIT
  {
    hide SweepSpec;
    SweepClearsTaken(db, now, ids);
    DistinctIsSet(ids);
    var all, taken := Overdue(db, now), Elements(ids);
    assert |all - taken| == |all| - |taken|;
    if |ids| < SWEEP_LIMIT {
      forall h | h in all ensures h in taken {
        assert Expirable(db, now, h);
      }
      assert taken == all;
    }
  }

  /** Successive sweeps at one instant, with nothing in between; one that fails is rolled back. */
  ghost predicate Sweeps(db: Db, now: int, rounds: seq<seq<Uuid>>, after: Db)
    decreases |rounds|
  {
    if rounds == [] then after == db
    else
      && Tables(db) && FullSweep(db, now, rounds[0])
      && var r := SweepSpec(db, rounds[0]);
         Sweeps(if r.Ok? then r.value else db, now, rounds[1..], after)
  }

  /** Where the invariant holds, n overdue holds are gone after exactly ceil(n / 100) sweeps. */
  lemma {:induction false} SweepsClear(db: Db, now: int, rounds: seq<seq<Uuid>>, after: Db)
    requires Inv(db) && Sweeps(db, now, rounds, after)
    ensures Inv(after)
    ensures Overdue(after, now) == {} <==> (|Overdue(db, now)| + SWEEP_LIMIT - 1) / SWEEP_LIMIT <= |rounds|
    decreases |rounds|
  {
    hide Inv, SweepSpec, Selection;
    if rounds != [] {
      var ids := rounds[0];
      FullIsSelection(db, now, ids);
      SweepNeverSticks(db, now, ids);
      SweepKeepsInv(db, ids);
      SweepShrinks(db, now, ids);
      SweepsClear(SweepSpec(db, ids).value, now, rounds[1..], after);
    }
  }

  lemma FullIsSelection(db: Db, now: int, ids: seq<Uuid>)
    requires FullSweep(db, now, ids)
    ensures Selection(db, now, ids)
  {
  }

  lemma SweepKeepsInv(db: Db, ids: seq<Uuid>)
    requires Inv(db) && Tables(db) && SweepSpec(db, ids).Ok?
    ensures Inv(SweepSpec(db, ids).value)
  {
    hide Inv;
    SpecSweepKeepsInv(db, ids, |ids|, "expiry");
  }
}
