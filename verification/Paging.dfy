/** Keyset paging over an append-only table of entries with growing ids. */
module Paging {
  import opened Prelude

  const MAX_PAGE: nat := 200

  datatype Entry = Entry(id: int, account: nat, amount: int, referenceType: string)

  /** An empty reference type filters nothing, like a missing one. */
  datatype Query = Query(account: nat, referenceType: string, limit: int)

  predicate Matches(q: Query, e: Entry) {
    e.account == q.account && (q.referenceType == "" || e.referenceType == q.referenceType)
  }

  predicate Before(cursor: Option<int>, e: Entry) {
    cursor.None? || e.id < cursor.value
  }

  function PageSize(q: Query): nat {
    if q.limit < 1 then 1 else if q.limit > MAX_PAGE then MAX_PAGE else q.limit
  }

  /** The rows of the query without its limit, newest first. */
  function Newest(entries: seq<Entry>, q: Query, cursor: Option<int>): seq<Entry> {
    if entries == [] then []
    else
      var last := entries[|entries| - 1];
      var rest := Newest(entries[..|entries| - 1], q, cursor);
      if Matches(q, last) && Before(cursor, last) then [last] + rest else rest
  }

  /** One page, and the cursor for the next if there is one. */
  function GetHistory(entries: seq<Entry>, q: Query, cursor: Option<int>): (seq<Entry>, Option<int>) {
    var found, limit := Newest(entries, q, cursor), PageSize(q);
    var rows := if |found| > limit + 1 then found[..limit + 1] else found;
    var hasMore := |rows| > limit;
    var page := if hasMore then rows[..limit] else rows;
    (page, if hasMore then Some(page[limit - 1].id) else None)
  }

  predicate AscendingIds(entries: seq<Entry>) {
    forall i, j | 0 <= i < j < |entries| :: entries[i].id < entries[j].id
  }

  /** Appending only ever adds entries with larger ids. */
  predicate Appended(before: seq<Entry>, after: seq<Entry>) {
    before <= after && AscendingIds(after)
  }

  /** An entry of this account and, if one is given, of this reference type, older than the cursor if there is one. */
  predicate Wanted(entries: seq<Entry>, q: Query, cursor: Option<int>, e: Entry) {
    e in entries && e.account == q.account && (q.referenceType != "" ==> e.referenceType == q.referenceType) &&
    (cursor.Some? ==> e.id < cursor.value)
  }

  predicate Descending(found: seq<Entry>) {
    forall i, j | 0 <= i < j < |found| :: found[i].id > found[j].id
  }

  lemma {:induction false} NewestIsExact(entries: seq<Entry>, q: Query, cursor: Option<int>)
    requires AscendingIds(entries)
    ensures forall e :: e in Newest(entries, q, cursor) <==>
              e in entries && e.account == q.account && (q.referenceType != "" ==> e.referenceType == q.referenceType) &&
              (cursor.Some? ==> e.id < cursor.value)
    ensures Descending(Newest(entries, q, cursor))
  {
    if entries != [] {
      var n := |entries| - 1;
      var last, rest := entries[n], Newest(entries[..n], q, cursor);
      NewestIsExact(entries[..n], q, cursor);
      assert entries == entries[..n] + [last];
      forall j | 0 <= j < |rest| ensures rest[j].id < last.id {
        assert rest[j] in entries[..n];
      }
      assert Descending([last] + rest);
    }
  }

  /** Continuing from a row found leaves exactly the rows after it. */
  lemma {:induction false} CursorCutsAfterIt(entries: seq<Entry>, q: Query, cursor: Option<int>, k: nat)
    requires AscendingIds(entries) && k < |Newest(entries, q, cursor)|
    ensures Newest(entries, q, Some(Newest(entries, q, cursor)[k].id)) == Newest(entries, q, cursor)[k + 1..]
  {
    var n := |entries| - 1;
    var last, rest := entries[n], entries[..n];
    var found := Newest(entries, q, cursor);
    NewestIsExact(rest, q, cursor);
    if !(Matches(q, last) && Before(cursor, last)) {
      CursorCutsAfterIt(rest, q, cursor, k);
      assert found[k] in Newest(rest, q, cursor);
    } else if k == 0 {
      AllBefore(rest, q, cursor, last.id);
    } else {
      CursorCutsAfterIt(rest, q, cursor, k - 1);
      assert found[k] == Newest(rest, q, cursor)[k - 1];
      assert found[k] in rest;
    }
  }

  lemma {:induction false} AllBefore(entries: seq<Entry>, q: Query, cursor: Option<int>, bound: int)
    requires forall e | e in entries :: e.id < bound
    requires cursor.None? || bound <= cursor.value
    ensures Newest(entries, q, Some(bound)) == Newest(entries, q, cursor)
  {
    if entries != [] {
      AllBefore(entries[..|entries| - 1], q, cursor, bound);
    }
  }

  /** Entries appended later have larger ids, so a cursor already given never sees them. */
  lemma {:induction false} AppendsAreInvisible(before: seq<Entry>, after: seq<Entry>, q: Query, cursor: int)
    requires Appended(before, after)
    requires exists e :: e in before && e.id == cursor
    ensures Newest(after, q, Some(cursor)) == Newest(before, q, Some(cursor))
    decreases |after|
  {
    if |before| == |after| {
      assert before == after;
    } else {
      var n := |after| - 1;
      assert Appended(before, after[..n]);
      AppendsAreInvisible(before, after[..n], q, cursor);
      hide Newest;
      LastIsPastTheCursor(before, after, cursor);
      LastIsUnseen(after, q, cursor);
    }
  }

  lemma LastIsPastTheCursor(before: seq<Entry>, after: seq<Entry>, cursor: int)
    requires Appended(before, after) && |before| < |after|
    requires exists e :: e in before && e.id == cursor
    ensures cursor < after[|after| - 1].id
  {
    var e :| e in before && e.id == cursor;
    var i :| 0 <= i < |before| && before[i] == e;
    assert after[i] == e;
  }

  lemma LastIsUnseen(entries: seq<Entry>, q: Query, cursor: int)
    requires entries != [] && cursor < entries[|entries| - 1].id
    ensures Newest(entries, q, Some(cursor)) == Newest(entries[..|entries| - 1], q, Some(cursor))
  {
  }

  /**
   A client following cursors. The k-th page is read from the table as it is
   then, `tables[k]`; the result is everything collected and the pages read.
   */
  function Follow(tables: seq<seq<Entry>>, q: Query, cursor: Option<int>): (seq<Entry>, nat)
    decreases |tables|
  {
    if tables == [] then ([], 0)
    else
      var (page, next) := GetHistory(tables[0], q, cursor);
      if next.None? then (page, 1)
      else
        var (rest, pages) := Follow(tables[1..], q, next);
        (page + rest, pages + 1)
  }

  /** The pages n rows take: a full one while more remain, and always at least one. */
  function PagesFor(n: nat, limit: nat): nat
    requires limit > 0
  {
    if n <= limit then 1 else 1 + PagesFor(n - limit, limit)
  }

  /** That is max(1, ceil(n / limit)). */
  lemma {:induction false} PagesForIsTheCeiling(n: nat, limit: nat)
    requires limit > 0
    ensures n <= PagesFor(n, limit) * limit
    ensures n > 0 ==> (PagesFor(n, limit) - 1) * limit < n
    ensures n == 0 ==> PagesFor(n, limit) == 1
  {
    if n > limit {
      PagesForIsTheCeiling(n - limit, limit);
      var p := PagesFor(n - limit, limit);
      assert (p + 1) * limit == p * limit + limit;
      assert (p - 1) * limit == p * limit - limit;
    }
  }

  lemma PageOf(entries: seq<Entry>, q: Query, cursor: Option<int>)
    ensures var found, limit := Newest(entries, q, cursor), PageSize(q);
            GetHistory(entries, q, cursor) ==
            if |found| > limit then (found[..limit], Some(found[limit - 1].id)) else (found, None)
  {
    var found, limit := Newest(entries, q, cursor), PageSize(q);
    if |found| > limit {
      assert found[..limit + 1][..limit] == found[..limit];
    }
  }

  /**
   One page: the newest wanted entries, as many as asked for between 1 and 200.
   There is a cursor exactly when wanted entries remain, and they lie below it.
   */
  lemma PageIsTheNewest(entries: seq<Entry>, q: Query, cursor: Option<int>)
    requires AscendingIds(entries)
    ensures var (page, next) := GetHistory(entries, q, cursor);
            var limit := if q.limit < 1 then 1 else if q.limit > 200 then 200 else q.limit;
            Descending(page) && |page| <= limit && (forall e | e in page :: Wanted(entries, q, cursor, e)) &&
            (next.None? <==> forall e | Wanted(entries, q, cursor, e) :: e in page) &&
            (next.Some? ==>
               |page| == limit && page[limit - 1].id == next.value &&
               forall e | Wanted(entries, q, cursor, e) && e !in page :: e.id < next.value)
  {
    var found, limit := Newest(entries, q, cursor), PageSize(q);
    NewestIsExact(entries, q, cursor);
    PageOf(entries, q, cursor);
    assert forall e :: e in found <==> Wanted(entries, q, cursor, e);
    hide Newest, GetHistory, Wanted, AscendingIds;
    if |found| > limit {
      FirstOfThem(found, limit);
    }
  }

  lemma FirstOfThem(found: seq<Entry>, limit: nat)
    requires Descending(found) && 0 < limit < |found|
    ensures Descending(found[..limit]) && (forall e | e in found[..limit] :: e in found)
    ensures found[limit] in found && found[limit] !in found[..limit]
    ensures forall e | e in found && e !in found[..limit] :: e.id < found[limit - 1].id
  {
    forall e | e in found && e !in found[..limit] ensures e.id < found[limit - 1].id {
      var k :| 0 <= k < |found| && found[k] == e;
      if k < limit { assert found[..limit][k] == e; }
    }
  }

  predicate Growing(tables: seq<seq<Entry>>) {
    tables == [] ||
    (AscendingIds(tables[0]) &&
     (|tables| > 1 ==> Appended(tables[0], tables[1])) &&
     Growing(tables[1..]))
  }

  /**
   Following cursors to the end returns precisely the matching entries present
   at the first call, newest first and each once, in max(1, ceil(n / limit))
   pages, whatever is appended between the pages.
   */
  lemma {:induction false} FollowingReturnsTheFirstSnapshot(
    tables: seq<seq<Entry>>, q: Query, cursor: Option<int>, found: seq<Entry>)
    requires tables != [] && Growing(tables)
    requires found == Newest(tables[0], q, cursor)
    requires |tables| >= PagesFor(|found|, PageSize(q))
    ensures Follow(tables, q, cursor) == (found, PagesFor(|found|, PageSize(q)))
    decreases |tables|
  {
    var limit := PageSize(q);
    FollowStep(tables, q, cursor, found);
    if |found| > limit {
      var rest := tables[1..];
      assert rest[0] == tables[1];
      PageLeavesTheRest(tables[0], tables[1], q, cursor);
      FollowingReturnsTheFirstSnapshot(rest, q, Some(found[limit - 1].id), found[limit..]);
      TakeDrop(found, limit);
    }
  }

  lemma TakeDrop<T>(s: seq<T>, n: nat)
    requires n <= |s|
    ensures s[..n] + s[n..] == s
  {
  }

  /** The next page's rows, read from a later table, are what the first page left over. */
  lemma PageLeavesTheRest(before: seq<Entry>, after: seq<Entry>, q: Query, cursor: Option<int>)
    requires AscendingIds(before) && Appended(before, after)
    requires |Newest(before, q, cursor)| > PageSize(q)
    ensures var found, limit := Newest(before, q, cursor), PageSize(q);
            Newest(after, q, Some(found[limit - 1].id)) == found[limit..]
  {
    var found, limit := Newest(before, q, cursor), PageSize(q);
    NewestIsExact(before, q, cursor);
    assert found[limit - 1] in before;
    CursorCutsAfterIt(before, q, cursor, limit - 1);
    AppendsAreInvisible(before, after, q, found[limit - 1].id);
  }

  lemma FollowStep(tables: seq<seq<Entry>>, q: Query, cursor: Option<int>, found: seq<Entry>)
    requires tables != [] && found == Newest(tables[0], q, cursor)
    ensures var limit := PageSize(q);
            Follow(tables, q, cursor) ==
            if |found| > limit then
              var later := Follow(tables[1..], q, Some(found[limit - 1].id));
              (found[..limit] + later.0, later.1 + 1)
            else (found, 1)
  {
    PageOf(tables[0], q, cursor);
  }
}
