/** Scanning the inbox for work, a page each tick, with a cursor that survives between ticks. */
module InboxScan {
  import opened Wrappers
  import opened MessageKeys

  /** A row's place: its time, then its event id. */
  datatype Row = Row(occurredAt: Text, id: Text)

  predicate IsAfter(row: Row, scan: Row) {
    if row.occurredAt != scan.occurredAt then Less(scan.occurredAt, row.occurredAt) else Less(scan.id, row.id)
  }

  predicate Sorted(rows: seq<Row>) {
    forall i, j :: 0 <= i < j < |rows| ==> IsAfter(rows[j], rows[i])
  }

  lemma AfterIsStrict(a: Row, b: Row, c: Row)
    ensures !IsAfter(a, a)
    ensures IsAfter(b, a) && IsAfter(c, b) ==> IsAfter(c, a)
    ensures IsAfter(a, b) || a == b || IsAfter(b, a)
  {
    LessIrreflexive(a.id);
    LessTotal(a.occurredAt, b.occurredAt);
    LessTotal(a.id, b.id);
    if IsAfter(b, a) && IsAfter(c, b) {
      if a.occurredAt == b.occurredAt == c.occurredAt {
        LessTransitive(a.id, b.id, c.id);
      } else if a.occurredAt != b.occurredAt && b.occurredAt != c.occurredAt {
        LessTransitive(a.occurredAt, b.occurredAt, c.occurredAt);
        LessAsymmetric(b.occurredAt, c.occurredAt);
      }
    }
  }

  datatype Page = Page(rows: seq<Row>, next: Option<Row>)

  /** The first row after the cursor; |rows| if there is none. */
  function FindAfter(rows: seq<Row>, scan: Row): (at: nat)
    ensures at <= |rows|
    ensures at < |rows| ==> IsAfter(rows[at], scan)
    ensures forall i :: 0 <= i < at ==> !IsAfter(rows[i], scan)
  {
    if rows == [] || IsAfter(rows[0], scan) then 0 else 1 + FindAfter(rows[1..], scan)
  }

  /** The page starts behind the cursor, or from the first row if nothing is behind it. */
  function Start(rows: seq<Row>, scan: Option<Row>): (start: nat)
    ensures start <= |rows| && (rows != [] ==> start < |rows|)
  {
    if scan.None? then 0
    else
      var at := FindAfter(rows, scan.value);
      if at == |rows| then 0 else at
  }

  function TakeInboxScanPage(rows: seq<Row>, scan: Option<Row>, limit: nat): Page {
    if |rows| <= limit then Page(rows, None)
    else
      var start := Start(rows, scan);
      var end := if start + limit <= |rows| then start + limit else |rows|;
      var page := rows[start..end];
      if page == [] || start + |page| >= |rows| then Page(page, None)
      else Page(page, Some(page[|page| - 1]))
  }

  // ----- a list that stays

  lemma FindAfterRow(rows: seq<Row>, k: nat)
    requires Sorted(rows) && k < |rows|
    ensures FindAfter(rows, rows[k]) == k + 1
  {
    hide IsAfter;
    forall i | 0 <= i <= k ensures !IsAfter(rows[i], rows[k]) {
      AfterIsStrict(rows[i], rows[k], rows[i]);
    }
    assert k + 1 < |rows| ==> IsAfter(rows[k + 1], rows[k]);
  }

  /** A cursor behind which something is left, or none. */
  predicate InSweep(rows: seq<Row>, scan: Option<Row>) {
    scan.Some? ==> FindAfter(rows, scan.value) < |rows|
  }

  /** The next page starts where this one ended. */
  lemma NextStart(rows: seq<Row>, scan: Option<Row>, limit: nat)
    requires limit > 0 && Sorted(rows) && TakeInboxScanPage(rows, scan, limit).next.Some?
    ensures var page, start := TakeInboxScanPage(rows, scan, limit), Start(rows, scan);
            && page.rows == rows[start..start + limit]
            && InSweep(rows, page.next) && Start(rows, page.next) == start + limit < |rows|
  {
    hide Start, FindAfter, Sorted;
    FindAfterRow(rows, Start(rows, scan) + limit - 1);
    StartAt(rows, rows[Start(rows, scan) + limit - 1]);
  }

  lemma StartAt(rows: seq<Row>, scan: Row)
    ensures FindAfter(rows, scan) < |rows| ==> Start(rows, Some(scan)) == FindAfter(rows, scan)
  {
  }

  /** The rows of the pages from a cursor up to the next empty cursor. */
  function Sweep(rows: seq<Row>, scan: Option<Row>, limit: nat): seq<Row>
    requires limit > 0 && Sorted(rows) && InSweep(rows, scan)
    decreases |rows| - Start(rows, scan)
  {
    var page := TakeInboxScanPage(rows, scan, limit);
    if page.next.None? then page.rows
    else
      NextStart(rows, scan, limit);
      page.rows + Sweep(rows, page.next, limit)
  }

  /** From no cursor, the pages up to the next empty cursor are exactly the list. */
  lemma SweepIsTheList(rows: seq<Row>, limit: nat)
    requires limit > 0 && Sorted(rows)
    ensures Sweep(rows, None, limit) == rows
  {
    if |rows| > limit { SweepFrom(rows, None, limit); }
  }

  lemma {:induction false} SweepFrom(rows: seq<Row>, scan: Option<Row>, limit: nat)
    requires limit > 0 && Sorted(rows) && InSweep(rows, scan) && |rows| > limit
    ensures Sweep(rows, scan, limit) == rows[Start(rows, scan)..]
    decreases |rows| - Start(rows, scan)
  {
    hide IsAfter, FindAfter, Sorted, Start, InSweep;
    var page := TakeInboxScanPage(rows, scan, limit);
    var start := Start(rows, scan);
    if page.next.Some? {
      NextStart(rows, scan, limit);
      SweepFrom(rows, page.next, limit);
      assert rows[start..] == rows[start..start + limit] + rows[start + limit..];
    }
  }

  // ----- a list whose rows disappear

  /** The cursor after each tick, over the lists the ticks see. */
  function Ticks(lists: seq<seq<Row>>, scan: Option<Row>, limit: nat): (pages: seq<Page>)
    ensures |pages| == |lists|
  {
    if lists == [] then []
    else
      var page := TakeInboxScanPage(lists[0], scan, limit);
      [page] + Ticks(lists[1..], page.next, limit)
  }

  predicate Served(pages: seq<Page>, x: Row) {
    exists i :: 0 <= i < |pages| && x in pages[i].rows
  }

  /** The sweep has yet to come to `x`. */
  predicate Ahead(scan: Option<Row>, x: Row) {
    scan.None? || IsAfter(x, scan.value)
  }

  /** Rows of `all` up to the cursor. */
  function Passed(all: seq<Row>, scan: Option<Row>): (n: nat)
    ensures n <= |all|
  {
    if scan.None? then 0 else FindAfter(all, scan.value)
  }

  /** Pages of `limit` rows that hold `n` rows. */
  function Pages(n: nat, limit: nat): nat
    requires limit > 0
  {
    if n == 0 then 0 else if n <= limit then 1 else 1 + Pages(n - limit, limit)
  }

  lemma {:induction false} PagesGrow(m: nat, n: nat, limit: nat)
    requires limit > 0 && m <= n
    ensures Pages(m, limit) <= Pages(n, limit)
    decreases n
  {
    if m > limit { PagesGrow(m - limit, n - limit, limit); }
  }

  lemma OnePageLess(m: nat, n: nat, limit: nat)
    requires limit > 0 && m + limit <= n
    ensures Pages(m, limit) + 1 <= Pages(n, limit)
  {
    PagesGrow(m, n - limit, limit);
  }

  /** Ticks until `x` is served: the pages left of this sweep, and a whole sweep of pages if `x` was passed. */
  function Wait(all: seq<Row>, scan: Option<Row>, limit: nat, x: Row): nat
    requires limit > 0
  {
    Pages(|all| - Passed(all, scan), limit) + if Ahead(scan, x) then 0 else Pages(|all|, limit)
  }

  lemma {:induction false} FindAfterGrows(all: seq<Row>, a: Row, b: Row)
    requires IsAfter(b, a)
    ensures FindAfter(all, a) <= FindAfter(all, b)
    ensures b in all && Sorted(all) ==> FindAfter(all, a) < FindAfter(all, b)
  {
    hide IsAfter, Sorted;
    var i, j := FindAfter(all, a), FindAfter(all, b);
    if j < |all| { AfterIsStrict(a, b, all[j]); }
    if b in all && Sorted(all) {
      var k :| 0 <= k < |all| && all[k] == b;
      FindAfterRow(all, k);
    }
  }

  /** Rows of `all` in order behind the cursor: the last of them has as many more behind it as there are rows. */
  lemma {:induction false} PartPasses(all: seq<Row>, scan: Option<Row>, part: seq<Row>)
    requires Sorted(all) && Sorted(part) && part != [] && forall row :: row in part ==> row in all
    requires scan.Some? ==> IsAfter(part[0], scan.value)
    ensures Passed(all, Some(part[|part| - 1])) >= Passed(all, scan) + |part|
    decreases |part|
  {
    hide IsAfter, FindAfter, Sorted;
    var n := |part| - 1;
    assert part[n] in part;
    if n == 0 {
      if scan.Some? { FindAfterGrows(all, scan.value, part[0]); }
      var k :| 0 <= k < |all| && all[k] == part[0];
      FindAfterRow(all, k);
    } else {
      SortedPrefix(part, n);
      PartPasses(all, scan, part[..n]);
      FindAfterGrows(all, part[n - 1], part[n]);
    }
  }

  lemma SortedPrefix(part: seq<Row>, n: nat)
    requires Sorted(part) && 0 < n < |part|
    ensures Sorted(part[..n]) && IsAfter(part[n], part[n - 1])
  {
  }

  /** A tick serves `x` or brings it nearer. */
  lemma TickComesNearer(all: seq<Row>, rows: seq<Row>, scan: Option<Row>, limit: nat, x: Row)
    requires limit > 0 && Sorted(all) && Sorted(rows) && x in rows && forall row :: row in rows ==> row in all
    ensures var page := TakeInboxScanPage(rows, scan, limit);
            x in page.rows || Wait(all, page.next, limit, x) < Wait(all, scan, limit, x)
  {
    hide IsAfter, FindAfter, Sorted, TakeInboxScanPage, Pages, Passed;
    var page := TakeInboxScanPage(rows, scan, limit);
    if x !in page.rows {
      PassesOn(rows, scan, limit, x);
      if page.next.Some? {
        PageAdvances(all, rows, scan, limit, x);
      } else {
        SweepEnds(all, rows, scan, limit, x);
      }
    }
  }

  /** A page with more behind it takes `limit` rows behind the cursor, or begins again at the start. */
  lemma PageAdvances(all: seq<Row>, rows: seq<Row>, scan: Option<Row>, limit: nat, x: Row)
    requires limit > 0 && Sorted(all) && Sorted(rows) && x in rows && forall row :: row in rows ==> row in all
    requires x !in TakeInboxScanPage(rows, scan, limit).rows && TakeInboxScanPage(rows, scan, limit).next.Some?
    ensures Wait(all, TakeInboxScanPage(rows, scan, limit).next, limit, x) < Wait(all, scan, limit, x)
  {
    hide IsAfter, FindAfter, Sorted, Pages, TakeInboxScanPage;
    var page, start := TakeInboxScanPage(rows, scan, limit), Start(rows, scan);
    PassesOn(rows, scan, limit, x);
    PageMisses(rows, scan, limit, x);
    SortedSlice(rows, start, start + |page.rows|);
    assert forall row :: row in page.rows ==> row in all;
    var from := if scan.Some? && FindAfter(rows, scan.value) < |rows| then scan else None;
    PartPasses(all, from, page.rows);
    OnePageLess(|all| - Passed(all, page.next), |all| - Passed(all, from), limit);
    if from != scan { AheadMeansFound(rows, scan.value, x); }
  }

  lemma SortedSlice(rows: seq<Row>, from: nat, to: nat)
    requires Sorted(rows) && from <= to <= |rows|
    ensures Sorted(rows[from..to])
  {
    hide IsAfter;
  }

  lemma AheadMeansFound(rows: seq<Row>, scan: Row, x: Row)
    requires x in rows && FindAfter(rows, scan) == |rows|
    ensures !IsAfter(x, scan)
  {
    var k :| 0 <= k < |rows| && rows[k] == x;
  }

  /** The last page of a sweep that passed `x`: the next sweep comes to it. */
  lemma SweepEnds(all: seq<Row>, rows: seq<Row>, scan: Option<Row>, limit: nat, x: Row)
    requires limit > 0 && Sorted(all) && Sorted(rows) && x in rows && forall row :: row in rows ==> row in all
    requires x !in TakeInboxScanPage(rows, scan, limit).rows && TakeInboxScanPage(rows, scan, limit).next.None?
    ensures Wait(all, None, limit, x) < Wait(all, scan, limit, x)
  {
    hide IsAfter, FindAfter, Sorted, TakeInboxScanPage;
    PassesOn(rows, scan, limit, x);
    PageMisses(rows, scan, limit, x);
    var start := Start(rows, scan);
    assert rows[start] in all;
    FindAfterGrows(all, scan.value, rows[start]);
    PagesGrow(1, |all| - Passed(all, scan), limit);
  }

  /** A page without `x` ends before it, or starts behind it. */
  lemma PageMisses(rows: seq<Row>, scan: Option<Row>, limit: nat, x: Row)
    requires limit > 0 && Sorted(rows) && x in rows && x !in TakeInboxScanPage(rows, scan, limit).rows
    ensures var page, start := TakeInboxScanPage(rows, scan, limit), Start(rows, scan);
            var end := start + |page.rows|;
            && start < end <= |rows| && |rows| > limit && page.rows == rows[start..end]
            && (page.next == if end < |rows| then Some(rows[end - 1]) else None) && (page.next.Some? ==> |page.rows| == limit)
            && (x in rows[..start] || (end < |rows| && IsAfter(x, rows[end - 1])))
  {
  }

  /** Where the cursor goes when a page does not hold `x`: on behind the cursor, or round to the start. */
  lemma PassesOn(rows: seq<Row>, scan: Option<Row>, limit: nat, x: Row)
    requires limit > 0 && Sorted(rows) && x in rows
    requires x !in TakeInboxScanPage(rows, scan, limit).rows
    ensures var next := TakeInboxScanPage(rows, scan, limit).next;
            && (next.None? ==> !Ahead(scan, x))
            && (next.Some? ==> next.value in rows)
            && (next.Some? && (Ahead(scan, x) || !IsAfter(next.value, scan.value)) ==> Ahead(next, x))
            && (next.Some? && Ahead(scan, x) ==> scan.None? || IsAfter(next.value, scan.value))
  {
    hide IsAfter, TakeInboxScanPage;
    PageMisses(rows, scan, limit, x);
    var start := Start(rows, scan);
    var end := start + |TakeInboxScanPage(rows, scan, limit).rows|;
    if scan.Some? && FindAfter(rows, scan.value) < |rows| {
      assert start < end - 1 ==> IsAfter(rows[end - 1], rows[start]);
      AfterIsStrict(scan.value, rows[start], rows[end - 1]);
    }
  }

  lemma {:induction false} ServedInTime(all: seq<Row>, lists: seq<seq<Row>>, scan: Option<Row>, limit: nat, x: Row)
    requires limit > 0 && Sorted(all) && x in all
    requires forall i :: 0 <= i < |lists| ==> Sorted(lists[i]) && x in lists[i] && forall row :: row in lists[i] ==> row in all
    requires |lists| >= Wait(all, scan, limit, x)
    ensures Served(Ticks(lists, scan, limit), x)
    decreases |lists|
  {
    hide Wait, Sorted, TakeInboxScanPage;
    WaitIsPositive(all, scan, limit, x);
    var page := TakeInboxScanPage(lists[0], scan, limit);
    var pages := Ticks(lists, scan, limit);
    if x in page.rows {
      assert x in pages[0].rows;
    } else {
      TickComesNearer(all, lists[0], scan, limit, x);
      ServedInTime(all, lists[1..], page.next, limit, x);
      var i :| 0 <= i < |pages[1..]| && x in pages[1..][i].rows;
      assert x in pages[i + 1].rows;
    }
  }

  lemma WaitIsPositive(all: seq<Row>, scan: Option<Row>, limit: nat, x: Row)
    requires limit > 0 && Sorted(all) && x in all
    ensures Wait(all, scan, limit, x) > 0
  {
    hide IsAfter, FindAfter, Sorted;
    if Ahead(scan, x) && scan.Some? {
      var k :| 0 <= k < |all| && all[k] == x;
      FindAfterGrows(all, scan.value, x);
    }
  }

  /**
   A row that stays is served within two sweeps of pages, wherever the cursor was and whatever other rows
   disappear: while the lists hold rows of an `all` of n rows, within twice the pages that n rows fill.
   */
  lemma StayingRowIsServed(all: seq<Row>, lists: seq<seq<Row>>, scan: Option<Row>, limit: nat, x: Row)
    requires limit > 0 && Sorted(all) && x in all
    requires forall i :: 0 <= i < |lists| ==> Sorted(lists[i]) && x in lists[i] && forall row :: row in lists[i] ==> row in all
    requires |lists| >= 2 * Pages(|all|, limit)
    ensures Served(Ticks(lists, scan, limit), x)
  {
    hide Sorted, Ahead, FindAfter;
    PagesGrow(|all| - Passed(all, scan), |all|, limit);
    ServedInTime(all, lists, scan, limit, x);
  }

  /** From a cursor that `x` lies behind, the sweep serves it by the time the cursor is empty again. */
  lemma {:induction false} SweepServes(lists: seq<seq<Row>>, scan: Option<Row>, limit: nat, x: Row, j: nat)
    requires limit > 0 && j < |lists| && Ahead(scan, x) && Ticks(lists, scan, limit)[j].next.None?
    requires forall i :: 0 <= i <= j ==> Sorted(lists[i]) && x in lists[i]
    ensures Served(Ticks(lists, scan, limit)[..j + 1], x)
    decreases |lists|
  {
    hide Sorted, TakeInboxScanPage, Ahead;
    var page, pages := TakeInboxScanPage(lists[0], scan, limit), Ticks(lists, scan, limit);
    if x in page.rows {
      assert x in pages[..j + 1][0].rows;
    } else {
      PassesOn(lists[0], scan, limit, x);
      SweepServes(lists[1..], page.next, limit, x, j - 1);
      var i :| 0 <= i < j && x in pages[1..][..j][i].rows;
      assert x in pages[..j + 1][i + 1].rows;
    }
  }

  /**
   Two sweeps serve a row that stays, whatever else comes and goes: by the second tick that ends with an empty
   cursor, from any cursor.
   */
  lemma {:induction false} TwoSweepsServe(lists: seq<seq<Row>>, scan: Option<Row>, limit: nat, x: Row, i: nat, j: nat)
    requires limit > 0 && i < j < |lists|
    requires Ticks(lists, scan, limit)[i].next.None? && Ticks(lists, scan, limit)[j].next.None?
    requires forall k :: 0 <= k <= j ==> Sorted(lists[k]) && x in lists[k]
    ensures Served(Ticks(lists, scan, limit)[..j + 1], x)
    decreases i
  {
    hide Sorted, TakeInboxScanPage;
    var page, pages := TakeInboxScanPage(lists[0], scan, limit), Ticks(lists, scan, limit);
    if i == 0 {
      SweepServes(lists[1..], None, limit, x, j - 1);
    } else {
      TwoSweepsServe(lists[1..], page.next, limit, x, i - 1, j - 1);
    }
    var k :| 0 <= k < j && x in pages[1..][..j][k].rows;
    assert x in pages[..j + 1][k + 1].rows;
  }

  // ----- a ring of a fixed list

  datatype RingPage<T> = RingPage(page: seq<T>, next: int)

  function TakeRingPage<T>(items: seq<T>, start: int, limit: nat): RingPage<T> {
    if |items| == 0 || |items| <= limit then RingPage(items, 0)
    else
      var index := if 0 <= start < |items| then start else 0;
      var end := if index + limit <= |items| then index + limit else |items|;
      RingPage(items[index..end], if end >= |items| then 0 else end)
  }

  /** The pages up to the next return to the start. */
  function Cycle<T>(items: seq<T>, start: nat, limit: nat): seq<T>
    requires limit > 0 && start <= |items|
    decreases |items| - start
  {
    var r := TakeRingPage(items, start, limit);
    if r.next <= start then r.page else r.page + Cycle(items, r.next, limit)
  }

  /** One cycle covers a fixed list exactly once, in order. */
  lemma CycleIsTheList<T>(items: seq<T>, limit: nat)
    requires limit > 0
    ensures Cycle(items, 0, limit) == items
  {
    if |items| > limit { CycleFrom(items, 0, limit); }
  }

  lemma {:induction false} CycleFrom<T>(items: seq<T>, start: nat, limit: nat)
    requires limit > 0 && start < |items| && |items| > limit
    ensures Cycle(items, start, limit) == items[start..]
    decreases |items| - start
  {
    if start + limit < |items| {
      CycleFrom(items, start + limit, limit);
      assert items[start..] == items[start..start + limit] + items[start + limit..];
    }
  }
}
