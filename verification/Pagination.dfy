/** listEntries of internal/httpapi/server.go: cursor pagination over a table that grows meanwhile. */
module Pagination {
  import opened Schema
  import opened Sequences
  import opened Machine
  import opened History

  const PAGE_LIMIT: nat := 50
  const FIRST_CURSOR: int := 0x4000_0000_0000_0000 - 1

  /** A row of ledger_entries with its identity. */
  datatype Listed = Listed(id: int, transactionId: Uuid, leg: Leg)

  ghost predicate Descending(rows: seq<Listed>) {
    forall i, j :: 0 <= i < j < |rows| ==> rows[i].id > rows[j].id
  }

  /** `where account_id = .. and id < cursor order by id desc limit 50`, over the ids of the account. */
  ghost predicate IsPage(table: set<Listed>, cursor: int, rows: seq<Listed>) {
    && Descending(rows) && |rows| <= PAGE_LIMIT
    && (forall i :: 0 <= i < |rows| ==> rows[i] in table && rows[i].id < cursor)
    && forall x :: x in table && x.id < cursor && x !in rows ==> |rows| == PAGE_LIMIT && x.id < rows[PAGE_LIMIT - 1].id
  }

  /** The cursor to query with: the parsed parameter or, if absent or malformed, 2^62 - 1. */
  function CursorOf(parsed: Option<int>): int {
    if parsed.Some? then parsed.value else FIRST_CURSOR
  }

  /** A request that is answered with 200 OK, or refused; a foreign account looks like a missing one. */
  datatype Response =
    | Listing(entries: seq<Listed>, next: Option<int>)
    | Unauthorized
    | BadRequest
    | AccountNotFound
    | InternalError

  /** What the ownership query finds: no error, and an account with this id and user. */
  predicate Owned(accounts: map<Uuid, Account>, id: Uuid, user: Uuid) {
    id in accounts && accounts[id].userId == user
  }

  /** The entries of the page and its cursor, on the entries of the account. */
  ghost predicate Lists(table: set<Listed>, cursor: int, out: seq<Listed>, next: Option<int>) {
    && IsPage(table, cursor, out)
    && (next.None? ==> forall x :: x in table && x.id < cursor ==> x in out)
    && (next.Some? ==>
          && out != [] && next.value < cursor && (forall i :: 0 <= i < |out| ==> next.value <= out[i].id)
          && forall x :: x in table && next.value <= x.id < cursor ==> x in out)
  }

  ghost function EntriesOf(table: set<Listed>, id: Uuid): set<Listed> {
    set x | x in table && x.leg.accountId == id
  }

  /**
   * What fails while a listing is made: the ownership query, the entry query, the scan of some row, or reading
   * before some row.
   */
  datatype Failures = Failures(ownership: bool, entries: bool, scanAt: Option<nat>, breakAt: Option<nat>)

  /**
   * rows are what the query finds. The next cursor is the id of the last row of a full page. Entries are
   * listed to the owner of the account only. The caller does not look at rows.Err(): if reading breaks off
   * early, the answer is short of entries but looks like the last page.
   */
  method ListEntries(accounts: map<Uuid, Account>, ghost table: set<Listed>, caller: Option<Uuid>,
                     account: Option<Uuid>, parsed: Option<int>, rows: seq<Listed>, failures: Failures)
    returns (r: Response)
    requires account.Some? ==> IsPage(EntriesOf(table, account.value), CursorOf(parsed), rows)
    ensures r.Unauthorized? <==> caller.None?
    ensures r.BadRequest? <==> caller.Some? && account.None?
    ensures r.AccountNotFound? <==>
      caller.Some? && account.Some? && (failures.ownership || !Owned(accounts, account.value, caller.value))
    ensures r.Listing? <==>
      && caller.Some? && account.Some? && !failures.ownership && Owned(accounts, account.value, caller.value)
      && !failures.entries && !ScanFails(failures, |rows|)
    ensures r.Listing? ==>
      (Lists(EntriesOf(table, account.value), CursorOf(parsed), r.entries, r.next) <==> !Cut(failures, |rows|))
    ensures r.Listing? && Cut(failures, |rows|) ==> r.entries == rows[..failures.breakAt.value] && r.next.None?
  {
    if caller.None? {
      return Unauthorized;
    }
    if account.None? {
      return BadRequest;
    }
    if failures.ownership || !Owned(accounts, account.value, caller.value) {
      return AccountNotFound;
    }
    if failures.entries {
      return InternalError;
    }
    var out: seq<Listed>, i := [], 0;
    while i < |rows| && failures.breakAt != Some(i)
      invariant 0 <= i <= |rows| && out == rows[..i]
      invariant failures.breakAt.Some? && failures.breakAt.value < |rows| ==> i <= failures.breakAt.value
      invariant failures.scanAt.Some? ==> failures.scanAt.value >= i
    {
      if failures.scanAt == Some(i) {
        return InternalError;
      }
      out, i := out + [rows[i]], i + 1;
    }
    var next := None;
    if |out| == PAGE_LIMIT {
      next := Some(out[|out| - 1].id);
    }
    if i < |rows| {
      assert rows[i] !in out;
    }
    return Listing(out, next);
  }

  /** Reading breaks off before the end of the result. */
  predicate Cut(failures: Failures, n: nat) {
    failures.breakAt.Some? && failures.breakAt.value < n
  }

  /** The scan of some row fails that is read at all. */
  predicate ScanFails(failures: Failures, n: nat) {
    && failures.scanAt.Some? && failures.scanAt.value < n
    && (failures.breakAt.Some? ==> failures.scanAt.value < failures.breakAt.value)
  }

  /** One request of a walk: the table as it was then, the page it returned, and whether reading broke off. */
  datatype Visit = Visit(table: set<Listed>, page: seq<Listed>, cut: bool)

  ghost predicate Reads(v: Visit, cursor: int) {
    if v.cut then exists whole :: IsPage(v.table, cursor, whole) && v.page < whole else IsPage(v.table, cursor, v.page)
  }

  lemma ReadFacts(v: Visit, cursor: int)
    requires Reads(v, cursor)
    ensures Descending(v.page) && |v.page| <= PAGE_LIMIT && (v.cut ==> |v.page| < PAGE_LIMIT)
    ensures forall i :: 0 <= i < |v.page| ==> v.page[i] in v.table && v.page[i].id < cursor
    ensures v.cut ==> exists x :: x in v.table && x.id < cursor && x !in v.page
  {
    if v.cut {
      var whole :| IsPage(v.table, cursor, whole) && v.page < whole;
      assert whole[|v.page|] !in v.page;
    }
  }

  /** A client follows next cursors from the given cursor until there is none. */
  ghost predicate Walk(visits: seq<Visit>, cursor: int)
    decreases |visits|
  {
    && visits != []
    && Reads(visits[0], cursor)
    && if |visits[0].page| < PAGE_LIMIT then |visits| == 1
       else Walk(visits[1..], visits[0].page[PAGE_LIMIT - 1].id)
  }

  ghost function All(visits: seq<Visit>): seq<Listed> {
    if visits == [] then [] else visits[0].page + All(visits[1..])
  }

  /** The walk returns ids below its cursor, in strictly decreasing order, so none of them twice. */
  lemma {:induction false} WalkDescends(visits: seq<Visit>, cursor: int)
    requires Walk(visits, cursor)
    ensures Descending(All(visits))
    ensures forall i :: 0 <= i < |All(visits)| ==> All(visits)[i].id < cursor
    decreases |visits|
  {
    var page := visits[0].page;
    ReadFacts(visits[0], cursor);
    if |page| == PAGE_LIMIT {
      WalkDescends(visits[1..], page[PAGE_LIMIT - 1].id);
    } else {
      assert All(visits[1..]) == [];
    }
  }

  /** Every entry that was there before the walk began, below the cursor, is returned, if no read broke off. */
  lemma {:induction false} WalkIsComplete(base: set<Listed>, visits: seq<Visit>, cursor: int, x: Listed)
    requires Walk(visits, cursor) && forall i :: 0 <= i < |visits| ==> base <= visits[i].table
    requires !visits[|visits| - 1].cut
    requires x in base && x.id < cursor
    ensures x in All(visits)
    decreases |visits|
  {
    assert base <= visits[0].table;
    ReadFacts(visits[0], cursor);
    if x !in visits[0].page {
      assert forall i :: 0 <= i < |visits[1..]| ==> base <= visits[1..][i].table;
      WalkIsComplete(base, visits[1..], visits[0].page[PAGE_LIMIT - 1].id, x);
    }
  }

  /** Everything returned was in the table when its page was read. */
  lemma {:induction false} WalkIsSound(visits: seq<Visit>, cursor: int, x: Listed)
    requires Walk(visits, cursor) && x in All(visits)
    ensures exists i :: 0 <= i < |visits| && x in visits[i].table && x in visits[i].page
    decreases |visits|
  {
    ReadFacts(visits[0], cursor);
    if x in visits[0].page {
      assert x in visits[0].table;
    } else {
      assert x in All(visits[1..]);
      if |visits[0].page| == PAGE_LIMIT {
        WalkIsSound(visits[1..], visits[0].page[PAGE_LIMIT - 1].id, x);
        var i :| 0 <= i < |visits[1..]| && x in visits[1..][i].table && x in visits[1..][i].page;
        assert visits[i + 1] == visits[1..][i];
      }
    }
  }

  /** If no read broke off, a walk from the first page returns an entry of the base iff its id is below 2^62 - 1. */
  lemma {:induction false} FirstWalkReturnsBase(base: set<Listed>, visits: seq<Visit>, x: Listed)
    requires Walk(visits, FIRST_CURSOR) && forall i :: 0 <= i < |visits| ==> base <= visits[i].table
    requires !visits[|visits| - 1].cut
    requires x in base
    ensures x in All(visits) <==> x.id < FIRST_CURSOR
  {
    WalkDescends(visits, FIRST_CURSOR);
    if x.id < FIRST_CURSOR {
      WalkIsComplete(base, visits, FIRST_CURSOR, x);
    }
  }

  // Walks over the ledger

  /** The rows of ledger_entries: ids gives the identity of each entry, assigned once and for all. */
  ghost function TableOf(db: Db, ids: seq<int>): set<Listed>
    requires |db.entries| <= |ids|
  {
    set i | 0 <= i < |db.entries| :: Listed(ids[i], db.entries[i].transactionId, db.entries[i].leg)
  }

  /** What the listing of an account queries after the first n attempts of the run. */
  ghost predicate Queried(db: Db, run: seq<Attempt>, n: nat, ids: seq<int>, account: Uuid, table: set<Listed>) {
    && n <= |run| && |Run(db, run[..n]).entries| <= |ids|
    && table == EntriesOf(TableOf(Run(db, run[..n]), ids), account)
  }

  lemma TableGrows(db: Db, run: seq<Attempt>, ids: seq<int>)
    requires |Run(db, run).entries| <= |ids|
    ensures |db.entries| <= |ids| && TableOf(db, ids) <= TableOf(Run(db, run), ids)
  {
    RunExtends(db, run);
    var after := Run(db, run);
    forall i | 0 <= i < |db.entries|
      ensures Listed(ids[i], db.entries[i].transactionId, db.entries[i].leg) in TableOf(after, ids)
    {
      assert db.entries[i] == after.entries[i];
    }
  }

  /**
   * A walk from the first page over the entries of an account, each request at any point of any run of the
   * service and no read broken off, returns an entry committed before the run iff its id is below 2^62 - 1.
   */
  lemma LedgerWalkReturnsBase(db: Db, run: seq<Attempt>, ids: seq<int>, account: Uuid, visits: seq<Visit>,
                              stops: seq<nat>, x: Listed)
    requires |db.entries| <= |ids| && x in EntriesOf(TableOf(db, ids), account)
    requires |stops| == |visits|
    requires forall i :: 0 <= i < |visits| ==> Queried(db, run, stops[i], ids, account, visits[i].table)
    requires Walk(visits, FIRST_CURSOR) && !visits[|visits| - 1].cut
    ensures x in All(visits) <==> x.id < FIRST_CURSOR
  {
    hide Walk, All, Run;
    var base := EntriesOf(TableOf(db, ids), account);
    forall i | 0 <= i < |visits| ensures base <= visits[i].table {
      assert Queried(db, run, stops[i], ids, account, visits[i].table);
      TableGrows(db, run[..stops[i]], ids);
    }
    WalkIsNonEmpty(visits, FIRST_CURSOR);
    FirstWalkReturnsBase(base, visits, x);
  }

  lemma WalkIsNonEmpty(visits: seq<Visit>, cursor: int)
    requires Walk(visits, cursor)
    ensures visits != []
  {
  }

  /** A read that breaks off ends the walk, and an entry that its query found is never returned. */
  lemma {:induction false} CutWalkMisses(visits: seq<Visit>, cursor: int) returns (x: Listed)
    requires Walk(visits, cursor) && visits[|visits| - 1].cut
    ensures x in visits[|visits| - 1].table && x.id < cursor && x !in All(visits)
    decreases |visits|
  {
    var page := visits[0].page;
    ReadFacts(visits[0], cursor);
    if |page| < PAGE_LIMIT {
      x :| x in visits[0].table && x.id < cursor && x !in page;
      assert All(visits[1..]) == [];
    } else {
      x := CutWalkMisses(visits[1..], page[PAGE_LIMIT - 1].id);
    }
  }

  ghost function Below(table: set<Listed>, cursor: int): set<Listed> {
    set x | x in table && x.id < cursor
  }

  /** A walk, finished or not, of n requests. */
  ghost predicate Prefix(visits: seq<Visit>, cursor: int)
    decreases |visits|
  {
    visits != [] ==>
      && Reads(visits[0], cursor)
      && (|visits| > 1 ==> |visits[0].page| == PAGE_LIMIT && Prefix(visits[1..], visits[0].page[PAGE_LIMIT - 1].id))
  }

  /** Once inserts stop, the walk ends: fifty entries fewer remain after each request that has a successor. */
  lemma {:induction false} WalkEnds(table: set<Listed>, visits: seq<Visit>, cursor: int)
    requires Prefix(visits, cursor) && visits != []
    requires forall i :: 0 <= i < |visits| ==> visits[i].table == table
    ensures PAGE_LIMIT * (|visits| - 1) <= |Below(table, cursor)|
    decreases |visits|
  {
    if |visits| > 1 {
      var page := visits[0].page;
      var last := page[PAGE_LIMIT - 1].id;
      assert forall i :: 0 <= i < |visits[1..]| ==> visits[1..][i].table == table;
      WalkEnds(table, visits[1..], last);
      ReadFacts(visits[0], cursor);
      DistinctIsSet(page);
      var taken := Elements(page);
      assert visits[0].table == table;
      assert Below(table, last) !! taken;
      Together(Below(table, last), taken, Below(table, cursor));
    }
  }

  lemma Together(a: set<Listed>, b: set<Listed>, c: set<Listed>)
    requires a !! b && a <= c && b <= c
    ensures |a| + |b| <= |c|
  {
    assert |a + b| == |a| + |b|;
    assert c == (a + b) + (c - (a + b));
  }
}
