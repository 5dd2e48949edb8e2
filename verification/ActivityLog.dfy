/** The activity log (internal/activity/store.go): filtered keyset paging over the newest-first order, and pruning to a
    row cap. The table is kept in the order of its index, newest first; ids come from AUTOINCREMENT and never return. */
module ActivityLog {
  import opened Basics

  const SOURCE_SYSTEM := "system"
  const DEFAULT_ROW_CAP: nat := 5000
  const DEFAULT_PRUNE_EVERY: nat := 200
  const DEFAULT_LIMIT: nat := 50

  /** What a caller records; `content` stands for the columns no query here looks at. */
  datatype Record = Record(source: string, actionType: string, occurredAtMs: int, content: string)

  datatype Row = Row(id: nat, record: Record)

  datatype Position = Position(occurredAtMs: int, id: int)

  datatype ListQuery = ListQuery(
    limit: int, sinceMs: int, untilMs: int, source: string, actionTypes: seq<string>, before: Option<Position>)

  function PositionOf(row: Row): Position {
    Position(row.record.occurredAtMs, row.id)
  }

  /** `p` comes before `q` in newest-first order. */
  predicate Newer(p: Position, q: Position) {
    p.occurredAtMs > q.occurredAtMs || (p.occurredAtMs == q.occurredAtMs && p.id > q.id)
  }

  ghost predicate NewestFirst(rows: seq<Row>) {
    forall i, j | 0 <= i < j < |rows| :: Newer(PositionOf(rows[i]), PositionOf(rows[j]))
  }

  // ---------------------------------------------------------------- the filter

  datatype Clause =
    | Since(ms: int) | Until(ms: int) | SourceIs(source: string) | ActionIn(actions: seq<string>) | After(position: Position)

  predicate Meets(row: Row, c: Clause) {
    match c
    case Since(ms) => row.record.occurredAtMs >= ms
    case Until(ms) => row.record.occurredAtMs <= ms
    case SourceIs(source) => row.record.source == source
    case ActionIn(actions) => row.record.actionType in actions
    case After(p) =>
      row.record.occurredAtMs < p.occurredAtMs || (row.record.occurredAtMs == p.occurredAtMs && row.id < p.id)
  }

  predicate MeetsAll(row: Row, clauses: seq<Clause>) {
    forall i | 0 <= i < |clauses| :: Meets(row, clauses[i])
  }

  /** The filters of a query but for its position: zero and empty mean unset. */
  predicate Filters(q: ListQuery, row: Row) {
    && (q.sinceMs == 0 || q.sinceMs <= row.record.occurredAtMs)
    && (q.untilMs == 0 || row.record.occurredAtMs <= q.untilMs)
    && (q.source == "" || row.record.source == q.source)
    && (q.actionTypes == [] || row.record.actionType in q.actionTypes)
  }

  /** What unset filters mean, and that a set one admits its bounds: a row falls in exactly one of two adjoining windows. */
  lemma FiltersPartition(q: ListQuery, row: Row, t: int)
    requires t != 0 && t + 1 != 0
    ensures q.sinceMs == 0 && q.untilMs == 0 && q.source == "" && q.actionTypes == [] ==> Filters(q, row)
    ensures Filters(q.(sinceMs := 0, untilMs := 0), row) <==>
            Filters(q.(sinceMs := 0, untilMs := t), row) || Filters(q.(sinceMs := t + 1, untilMs := 0), row)
    ensures !(Filters(q.(sinceMs := 0, untilMs := t), row) && Filters(q.(sinceMs := t + 1, untilMs := 0), row))
    ensures Filters(q, row) ==> (q.source != "" ==> row.record.source == q.source)
                                && (q.actionTypes != [] ==> row.record.actionType in q.actionTypes)
  {
  }

  /** What a query selects: the rows its filters admit, strictly older than its position if it has one. */
  predicate Selects(q: ListQuery, row: Row) {
    Filters(q, row) && (q.before.Some? ==> Newer(q.before.value, PositionOf(row)))
  }

  lemma MeetsSnoc(clauses: seq<Clause>, c: Clause)
    ensures forall row :: MeetsAll(row, clauses + [c]) <==> MeetsAll(row, clauses) && Meets(row, c)
  {
    forall row ensures MeetsAll(row, clauses + [c]) <==> MeetsAll(row, clauses) && Meets(row, c) {
      var more := clauses + [c];
      assert more[|clauses|] == c && forall i | 0 <= i < |clauses| :: more[i] == clauses[i];
    }
  }

  /** The clauses appended one by one mean what the query asks for. */
  method Where(q: ListQuery) returns (clauses: seq<Clause>)
    ensures forall row :: MeetsAll(row, clauses) <==> Selects(q, row)
  {
    clauses := [];
    if q.sinceMs != 0 {
      MeetsSnoc(clauses, Since(q.sinceMs));
      clauses := clauses + [Since(q.sinceMs)];
    }
    if q.untilMs != 0 {
      MeetsSnoc(clauses, Until(q.untilMs));
      clauses := clauses + [Until(q.untilMs)];
    }
    if q.source != "" {
      MeetsSnoc(clauses, SourceIs(q.source));
      clauses := clauses + [SourceIs(q.source)];
    }
    if |q.actionTypes| > 0 {
      MeetsSnoc(clauses, ActionIn(q.actionTypes));
      clauses := clauses + [ActionIn(q.actionTypes)];
    }
    if q.before.Some? {
      MeetsSnoc(clauses, After(q.before.value));
      clauses := clauses + [After(q.before.value)];
    }
  }

  // ---------------------------------------------------------------- one page

  function LimitOf(q: ListQuery): nat {
    if q.limit <= 0 then DEFAULT_LIMIT else q.limit
  }

  /** A page: the newest rows the query selects, newest first, all of them or a full page. */
  ghost predicate IsPage(table: seq<Row>, q: ListQuery, page: seq<Row>) {
    && NewestFirst(page) && |page| <= LimitOf(q)
    && (forall row :: row in page ==> row in table && Selects(q, row))
    && (forall row :: row in table && Selects(q, row) && row !in page ==>
          |page| == LimitOf(q) && Newer(PositionOf(page[|page| - 1]), PositionOf(row)))
  }

  /** Whatever `sorted` holds beyond `page` is older than all of it. */
  ghost predicate Closed(page: seq<Row>, sorted: seq<Row>) {
    && (forall p | p in page :: p in sorted)
    && (forall p, r | p in page && r in sorted && r !in page :: Newer(PositionOf(p), PositionOf(r)))
  }

  lemma HeadIsNewest(rows: seq<Row>, row: Row)
    requires NewestFirst(rows) && row in rows
    ensures row == rows[0] || Newer(PositionOf(rows[0]), PositionOf(row))
  {
  }

  lemma {:induction false} ClosedIsPrefix(page: seq<Row>, sorted: seq<Row>)
    requires NewestFirst(page) && NewestFirst(sorted) && Closed(page, sorted)
    ensures |page| <= |sorted| && page == sorted[..|page|]
  {
    if page != [] {
      assert page[0] in sorted;
      var p, r := page[0], sorted[0];
      HeadIsNewest(sorted, p);
      if r in page {
        HeadIsNewest(page, r);
      }
      assert p == r;
      assert page == [p] + page[1..] && sorted == [p] + sorted[1..];
      forall x | x in page[1..] ensures x in sorted[1..] {
        assert x in page && x in sorted;
        assert x != p;
      }
      ClosedIsPrefix(page[1..], sorted[1..]);
    }
  }

  /** There is one page to give: the first rows of the plain sorted list, whatever way it is read. */
  lemma PageIsPrefix(table: seq<Row>, q: ListQuery, page: seq<Row>, sorted: seq<Row>)
    requires IsPage(table, q, page)
    requires NewestFirst(sorted) && forall row :: row in sorted <==> row in table && Selects(q, row)
    ensures page == sorted[..Min(LimitOf(q), |sorted|)]
  {
    forall p, r | p in page && r in sorted && r !in page ensures Newer(PositionOf(p), PositionOf(r)) {
      assert p == page[|page| - 1] || Newer(PositionOf(p), PositionOf(page[|page| - 1]));
    }
    ClosedIsPrefix(page, sorted);
    if |page| < |sorted| {
      var row := sorted[|page|];
      assert row !in page by {
        assert forall k | 0 <= k < |page| :: page[k] == sorted[k] && Newer(PositionOf(sorted[k]), PositionOf(row));
      }
      assert row in sorted;
    }
  }

  // ---------------------------------------------------------------- following pages

  /** The query for what comes after a page. */
  function NextQuery(q: ListQuery, page: seq<Row>): ListQuery
    requires page != []
  {
    q.(before := Some(PositionOf(page[|page| - 1])))
  }

  /** A reader follows each page's last row as Before. `tables[i]` is the table when page i is read: other writers
      may insert and prune in between. */
  ghost predicate Follows(tables: seq<seq<Row>>, q: ListQuery, pages: seq<seq<Row>>)
    decreases |pages|
  {
    && |tables| == |pages|
    && (pages != [] ==>
          && IsPage(tables[0], q, pages[0])
          && (|pages| > 1 ==> pages[0] != [] && Follows(tables[1..], NextQuery(q, pages[0]), pages[1..])))
  }

  function Rows(pages: seq<seq<Row>>): seq<Row> {
    if pages == [] then [] else pages[0] + Rows(pages[1..])
  }

  /** Everything read later is older than the position started from. */
  lemma {:induction false} AllSelected(tables: seq<seq<Row>>, q: ListQuery, pages: seq<seq<Row>>)
    requires Follows(tables, q, pages)
    ensures forall row :: row in Rows(pages) ==> Selects(q, row)
  {
    if pages != [] {
      if |pages| > 1 {
        var next := NextQuery(q, pages[0]);
        AllSelected(tables[1..], next, pages[1..]);
        forall row | row in Rows(pages[1..]) ensures Selects(q, row) {
          assert Selects(next, row);
          assert pages[0][|pages[0]| - 1] in pages[0];
        }
      } else {
        assert Rows(pages[1..]) == [];
      }
    }
  }

  /** No repeats and no disorder, whatever is written between the pages. */
  lemma {:induction false} PagesNeverRepeat(tables: seq<seq<Row>>, q: ListQuery, pages: seq<seq<Row>>)
    requires Follows(tables, q, pages)
    ensures NewestFirst(Rows(pages))
  {
    if |pages| > 1 {
      var next := NextQuery(q, pages[0]);
      PagesNeverRepeat(tables[1..], next, pages[1..]);
      AllSelected(tables[1..], next, pages[1..]);
      var first, rest := pages[0], Rows(pages[1..]);
      forall i, j | 0 <= i < j < |first + rest| ensures Newer(PositionOf((first + rest)[i]), PositionOf((first + rest)[j])) {
        if i < |first| <= j {
          assert rest[j - |first|] in rest;
          assert i == |first| - 1 || Newer(PositionOf(first[i]), PositionOf(first[|first| - 1]));
        }
      }
    } else if |pages| == 1 {
      assert Rows(pages[1..]) == [];
    }
  }

  /** The reader has reached past `row`: the last page is not full, or its last row is as old. */
  ghost predicate Reached(q: ListQuery, pages: seq<seq<Row>>, row: Row)
    requires pages != []
  {
    var last := pages[|pages| - 1];
    |last| < LimitOf(q) || (last != [] && !Newer(PositionOf(last[|last| - 1]), PositionOf(row)))
  }

  /** No gaps: a row that was in the table all along and that the reader has reached was read. */
  lemma {:induction false} PagesNeverSkip(tables: seq<seq<Row>>, q: ListQuery, pages: seq<seq<Row>>, row: Row)
    requires Follows(tables, q, pages) && pages != [] && Reached(q, pages, row)
    requires Selects(q, row) && forall i | 0 <= i < |tables| :: row in tables[i]
    ensures row in Rows(pages)
  {
    if row !in pages[0] {
      assert row in tables[0];
      assert |pages| > 1;
      var next := NextQuery(q, pages[0]);
      assert Selects(next, row);
      assert forall i | 0 <= i < |tables[1..]| :: tables[1..][i] == tables[i + 1];
      assert pages[1..][|pages[1..]| - 1] == pages[|pages| - 1];
      PagesNeverSkip(tables[1..], next, pages[1..], row);
    }
  }

  /** On a table nobody writes to, following the pages to a short one reads exactly the selected rows, newest first. */
  lemma {:induction false} PagesEnumerate(table: seq<Row>, tables: seq<seq<Row>>, q: ListQuery, pages: seq<seq<Row>>)
    requires Follows(tables, q, pages) && pages != [] && |pages[|pages| - 1]| < LimitOf(q)
    requires forall i | 0 <= i < |tables| :: tables[i] == table
    ensures NewestFirst(Rows(pages))
    ensures forall row :: row in Rows(pages) <==> row in table && Selects(q, row)
  {
    PagesNeverRepeat(tables, q, pages);
    AllSelected(tables, q, pages);
    forall row ensures row in Rows(pages) <==> row in table && Selects(q, row) {
      if row in table && Selects(q, row) {
        PagesNeverSkip(tables, q, pages, row);
      }
      if row in Rows(pages) {
        ReadFromTables(tables, q, pages, row);
      }
    }
  }

  lemma OnePage(pages: seq<seq<Row>>)
    ensures |pages| == 1 ==> Rows(pages) == pages[0]
  {
    if |pages| == 1 {
      assert Rows(pages[1..]) == [];
    }
  }

  lemma {:induction false} ReadFromTables(tables: seq<seq<Row>>, q: ListQuery, pages: seq<seq<Row>>, row: Row)
    requires Follows(tables, q, pages) && row in Rows(pages)
    ensures exists i :: 0 <= i < |tables| && row in tables[i]
  {
    OnePage(pages);
    if row !in pages[0] {
      ReadFromTables(tables[1..], NextQuery(q, pages[0]), pages[1..], row);
      var i :| 0 <= i < |tables[1..]| && row in tables[1..][i];
      assert row in tables[i + 1];
    }
  }

  // ---------------------------------------------------------------- writing and pruning

  /** The table, the next id, and the store's count of writes since the process started. */
  datatype Log = Log(rows: seq<Row>, nextId: nat, successful: nat)

  ghost predicate Sound(log: Log) {
    NewestFirst(log.rows) && forall i | 0 <= i < |log.rows| :: log.rows[i].id < log.nextId
  }

  /** The index takes a new row in its place. */
  function Insert(row: Row, rows: seq<Row>): seq<Row> {
    if rows == [] || Newer(PositionOf(row), PositionOf(rows[0])) then [row] + rows
    else [rows[0]] + Insert(row, rows[1..])
  }

  predicate PrunesAt(successful: nat, pruneEvery: nat)
    requires pruneEvery > 0
  {
    successful <= 1 || successful % pruneEvery == 0
  }

  /** A record without a source is the system's. */
  function Stored(record: Record): Record {
    if record.source == "" then record.(source := SOURCE_SYSTEM) else record
  }

  /** A record is filed under its own source, or the system's when it names none, and keeps everything else. */
  lemma StoredExactly(record: Record)
    ensures Stored(record).source == if record.source == "" then "system" else record.source
    ensures Stored(record).actionType == record.actionType && Stored(record).occurredAtMs == record.occurredAtMs
    ensures Stored(record).content == record.content
  {
  }

  /** One committed write: insert, count, and prune on the first write and then every pruneEvery writes. */
  function Write(rowCap: nat, pruneEvery: nat, log: Log, record: Record): Log
    requires pruneEvery > 0
  {
    var grown := Insert(Row(log.nextId, Stored(record)), log.rows);
    var kept := if PrunesAt(log.successful + 1, pruneEvery) then grown[..Min(rowCap, |grown|)] else grown;
    Log(kept, log.nextId + 1, log.successful + 1)
  }

  lemma {:induction false} InsertPlaces(row: Row, rows: seq<Row>)
    requires NewestFirst(rows) && forall i | 0 <= i < |rows| :: rows[i].id < row.id
    ensures NewestFirst(Insert(row, rows)) && |Insert(row, rows)| == |rows| + 1
    ensures forall r :: r in Insert(row, rows) <==> r == row || r in rows
  {
    if !(rows == [] || Newer(PositionOf(row), PositionOf(rows[0]))) {
      InsertPlaces(row, rows[1..]);
      var tail := Insert(row, rows[1..]);
      forall i | 0 <= i < |tail| ensures Newer(PositionOf(rows[0]), PositionOf(tail[i])) {
        assert tail[i] in tail;
        if tail[i] != row {
          var k :| 0 <= k < |rows[1..]| && rows[1..][k] == tail[i];
          assert rows[k + 1] == tail[i];
        }
      }
      assert rows == [rows[0]] + rows[1..];
    }
  }

  /** The table stays in order and under the cap plus one pruning period. */
  ghost predicate Bounded(rowCap: nat, pruneEvery: nat, log: Log)
    requires pruneEvery > 0
  {
    log.successful > 0 ==> |log.rows| <= rowCap + log.successful % pruneEvery
  }

  lemma RemainderUnique(x: int, m: int, q: int, r: int)
    requires m > 0 && x == m * q + r && 0 <= r < m
    ensures x % m == r
  {
    var d := x / m - q;
    assert m * d == r - x % m;
    assert d >= 1 ==> m * d >= m;
    assert d <= -1 ==> m * d <= -m;
  }

  lemma RemainderAdvances(n: nat, m: nat)
    requires m > 0
    ensures (n + 1) % m == if n % m == m - 1 then 0 else n % m + 1
  {
    if n % m == m - 1 {
      RemainderUnique(n + 1, m, n / m + 1, 0);
    } else {
      RemainderUnique(n + 1, m, n / m, n % m + 1);
    }
  }

  lemma GrownSound(log: Log, record: Record)
    requires Sound(log)
    ensures var grown := Insert(Row(log.nextId, record), log.rows);
            NewestFirst(grown) && |grown| == |log.rows| + 1 && forall i | 0 <= i < |grown| :: grown[i].id < log.nextId + 1
  {
    var row := Row(log.nextId, record);
    InsertPlaces(row, log.rows);
    var grown := Insert(row, log.rows);
    forall i | 0 <= i < |grown| ensures grown[i].id < log.nextId + 1 {
      assert grown[i] in grown;
    }
  }

  lemma WriteKeeps(rowCap: nat, pruneEvery: nat, log: Log, record: Record)
    requires pruneEvery > 0 && Sound(log) && Bounded(rowCap, pruneEvery, log)
    ensures Sound(Write(rowCap, pruneEvery, log, record))
    ensures Bounded(rowCap, pruneEvery, Write(rowCap, pruneEvery, log, record))
  {
    GrownSound(log, Stored(record));
    RemainderAdvances(log.successful, pruneEvery);
  }

  function Writes(rowCap: nat, pruneEvery: nat, log: Log, records: seq<Record>): Log
    requires pruneEvery > 0
    decreases |records|
  {
    if records == [] then log
    else Writes(rowCap, pruneEvery, Write(rowCap, pruneEvery, log, records[0]), records[1..])
  }

  lemma {:induction false} WritesKeep(rowCap: nat, pruneEvery: nat, log: Log, records: seq<Record>)
    requires pruneEvery > 0 && Sound(log) && Bounded(rowCap, pruneEvery, log)
    ensures Sound(Writes(rowCap, pruneEvery, log, records)) && Bounded(rowCap, pruneEvery, Writes(rowCap, pruneEvery, log, records))
    ensures Writes(rowCap, pruneEvery, log, records).successful == log.successful + |records|
    decreases |records|
  {
    if records != [] {
      WriteKeeps(rowCap, pruneEvery, log, records[0]);
      WritesKeep(rowCap, pruneEvery, Write(rowCap, pruneEvery, log, records[0]), records[1..]);
    }
  }

  /** However full the table a process finds, after its first committed write it is never beyond the cap plus one
      pruning period less one. */
  lemma TableStaysBounded(rowCap: nat, pruneEvery: nat, found: seq<Row>, nextId: nat, records: seq<Record>)
    requires pruneEvery > 0 && Sound(Log(found, nextId, 0)) && records != []
    ensures |Writes(rowCap, pruneEvery, Log(found, nextId, 0), records).rows| <= rowCap + pruneEvery - 1
  {
    WritesKeep(rowCap, pruneEvery, Log(found, nextId, 0), records);
  }

  /** How many rows of the table come before a position. */
  function Before(rows: seq<Row>, p: Position): nat {
    if rows == [] then 0 else (if Newer(PositionOf(rows[0]), p) then 1 else 0) + Before(rows[1..], p)
  }

  lemma {:induction false} InsertedAt(row: Row, rows: seq<Row>)
    requires NewestFirst(rows) && forall i | 0 <= i < |rows| :: rows[i].id < row.id
    ensures Before(rows, PositionOf(row)) < |Insert(row, rows)|
    ensures Insert(row, rows)[Before(rows, PositionOf(row))] == row
  {
    if rows != [] {
      if Newer(PositionOf(row), PositionOf(rows[0])) {
        NoneBefore(rows, PositionOf(row));
      } else {
        InsertedAt(row, rows[1..]);
      }
    }
  }

  lemma {:induction false} NoneBefore(rows: seq<Row>, p: Position)
    requires NewestFirst(rows) && (rows != [] ==> !Newer(PositionOf(rows[0]), p))
    ensures Before(rows, p) == 0
  {
    if |rows| > 1 {
      assert Newer(PositionOf(rows[0]), PositionOf(rows[1]));
      NoneBefore(rows[1..], p);
    }
  }

  lemma CutIsOlder(rows: seq<Row>, n: nat, kept: Row, lost: Row)
    requires NewestFirst(rows) && n <= |rows|
    requires kept in rows[..n] && lost in rows && lost !in rows[..n]
    ensures Newer(PositionOf(kept), PositionOf(lost))
  {
    var i :| 0 <= i < n && rows[..n][i] == kept;
    var j :| 0 <= j < |rows| && rows[j] == lost;
    assert forall t | 0 <= t < n :: rows[t] == rows[..n][t] && rows[t] in rows[..n];
    assert j >= n;
  }

  /** A prune keeps exactly the newest rows up to the cap. */
  lemma PruneKeepsNewest(rowCap: nat, pruneEvery: nat, log: Log, record: Record)
    requires pruneEvery > 0 && Sound(log) && PrunesAt(log.successful + 1, pruneEvery)
    ensures var row, after := Row(log.nextId, Stored(record)), Write(rowCap, pruneEvery, log, record).rows;
            && |after| == Min(rowCap, |log.rows| + 1)
            && (forall r :: r in after ==> r == row || r in log.rows)
            && (forall kept, lost | kept in after && (lost == row || lost in log.rows) && lost !in after ::
                  Newer(PositionOf(kept), PositionOf(lost)))
  {
    var row := Row(log.nextId, Stored(record));
    var grown, after := Insert(row, log.rows), Write(rowCap, pruneEvery, log, record).rows;
    InsertPlaces(row, log.rows);
    assert after == grown[..Min(rowCap, |grown|)];
    forall kept, lost | kept in after && (lost == row || lost in log.rows) && lost !in after
      ensures Newer(PositionOf(kept), PositionOf(lost))
    {
      assert lost in grown;
      CutIsOlder(grown, |after|, kept, lost);
    }
  }

  /** Between two prunes nothing is lost: but for the first write and every pruneEvery-th one, the table has the rows it
      had and the new one. */
  lemma NothingLostBetween(rowCap: nat, pruneEvery: nat, log: Log, record: Record)
    requires pruneEvery > 0 && Sound(log) && log.successful > 0 && (log.successful + 1) % pruneEvery != 0
    ensures var after := Write(rowCap, pruneEvery, log, record);
            && |after.rows| == |log.rows| + 1 && after.nextId == log.nextId + 1 && after.successful == log.successful + 1
            && forall r :: r in after.rows <==> r == Row(log.nextId, Stored(record)) || r in log.rows
  {
    InsertPlaces(Row(log.nextId, Stored(record)), log.rows);
  }

  /** The write that prunes may lose its own row: exactly when the cap is filled by rows newer than it. */
  lemma WrittenRowSurvives(rowCap: nat, pruneEvery: nat, log: Log, record: Record)
    requires pruneEvery > 0 && Sound(log) && PrunesAt(log.successful + 1, pruneEvery)
    ensures var row := Row(log.nextId, Stored(record));
            row in Write(rowCap, pruneEvery, log, record).rows <==> Before(log.rows, PositionOf(row)) < rowCap
  {
    var row := Row(log.nextId, Stored(record));
    var grown, after := Insert(row, log.rows), Write(rowCap, pruneEvery, log, record).rows;
    InsertPlaces(row, log.rows);
    InsertedAt(row, log.rows);
    assert after == grown[..Min(rowCap, |grown|)];
    var at := Before(log.rows, PositionOf(row));
    if at < |after| {
      assert after[at] == row;
    } else {
      assert forall t | 0 <= t < |after| :: after[t] == grown[t] && Newer(PositionOf(grown[t]), PositionOf(grown[at]));
    }
  }

  // ---------------------------------------------------------------- the store

  /** The rows a query selects, in the order of the table. */
  function Selected(rows: seq<Row>, q: ListQuery): seq<Row> {
    if rows == [] then []
    else
      var rest := Selected(rows[..|rows| - 1], q);
      if Selects(q, rows[|rows| - 1]) then rest + [rows[|rows| - 1]] else rest
  }

  lemma {:induction false} SelectedInOrder(rows: seq<Row>, q: ListQuery)
    requires NewestFirst(rows)
    ensures NewestFirst(Selected(rows, q))
    ensures forall row :: row in Selected(rows, q) <==> row in rows && Selects(q, row)
  {
    if rows != [] {
      var init, last := rows[..|rows| - 1], rows[|rows| - 1];
      SelectedInOrder(init, q);
      assert rows == init + [last];
      forall row | row in init ensures Newer(PositionOf(row), PositionOf(last)) {
        var i :| 0 <= i < |init| && init[i] == row;
        assert rows[i] == row;
      }
      forall i | 0 <= i < |Selected(init, q)| ensures Newer(PositionOf(Selected(init, q)[i]), PositionOf(last)) {
        assert Selected(init, q)[i] in init;
      }
    }
  }

  /** Walking the index and stopping at the limit gives the page. */
  lemma WalkIsPage(rows: seq<Row>, q: ListQuery)
    requires NewestFirst(rows)
    ensures IsPage(rows, q, Selected(rows, q)[..Min(LimitOf(q), |Selected(rows, q)|)])
  {
    SelectedInOrder(rows, q);
    var all := Selected(rows, q);
    var page := all[..Min(LimitOf(q), |all|)];
    forall row | row in rows && Selects(q, row) && row !in page
      ensures |page| == LimitOf(q) && Newer(PositionOf(page[|page| - 1]), PositionOf(row))
    {
      assert row in all;
      var i :| 0 <= i < |all| && all[i] == row;
      assert forall t | 0 <= t < |page| :: page[t] == all[t] && page[t] in page;
      assert i >= |page|;
    }
  }

  lemma {:induction false} SelectedGrows(rows: seq<Row>, q: ListQuery, i: nat)
    requires i <= |rows|
    ensures Selected(rows[..i], q) <= Selected(rows, q)
    decreases |rows|
  {
    if i < |rows| {
      var init := rows[..|rows| - 1];
      SelectedGrows(init, q, i);
      assert init[..i] == rows[..i];
    } else {
      assert rows[..i] == rows;
    }
  }

  /** How a write may end: refused before it is counted, counted but rolled back at the commit, or committed. */
  datatype Fate = InsertFails | CommitFails | Commits

  class Store {
    const rowCap: nat
    const pruneEvery: nat
    var rows: seq<Row>
    var nextId: nat
    var successful: nat

    ghost function Shown(): Log
      reads this
    {
      Log(rows, nextId, successful)
    }

    ghost predicate Valid()
      reads this
    {
      rowCap > 0 && pruneEvery > 0 && Sound(Shown())
    }

    /** A non-positive retention falls back to its default; the table is whatever an earlier process left. */
    constructor (rowCap: int, pruneEvery: int, found: seq<Row>, nextId: nat)
      requires Sound(Log(found, nextId, 0))
      ensures Valid() && Shown() == Log(found, nextId, 0)
      ensures this.rowCap == (if rowCap <= 0 then DEFAULT_ROW_CAP else rowCap)
      ensures this.pruneEvery == (if pruneEvery <= 0 then DEFAULT_PRUNE_EVERY else pruneEvery)
    {
      this.rowCap := if rowCap <= 0 then DEFAULT_ROW_CAP else rowCap;
      this.pruneEvery := if pruneEvery <= 0 then DEFAULT_PRUNE_EVERY else pruneEvery;
      rows, this.nextId, successful := found, nextId, 0;
    }

    method RecordActivity(record: Record, fate: Fate) returns (ok: bool)
      requires Valid()
      modifies this
      ensures Valid() && (ok <==> fate.Commits?)
      ensures ok ==> Shown() == Write(rowCap, pruneEvery, old(Shown()), record)
      ensures ok && ((old(successful) > 0 && (old(successful) + 1) % pruneEvery != 0) || |old(rows)| < rowCap) ==>
                var source := if record.source == "" then "system" else record.source;
                Row(old(nextId), Record(source, record.actionType, record.occurredAtMs, record.content)) in rows
      ensures !ok ==> rows == old(rows) && nextId == old(nextId)
      ensures !ok ==> successful == old(successful) + if fate.CommitFails? then 1 else 0
      ensures old(Bounded(rowCap, pruneEvery, Shown())) && !fate.CommitFails? ==> Bounded(rowCap, pruneEvery, Shown())
    {
      if fate.InsertFails? {
        return false;
      }
      GrownSound(Shown(), Stored(record));
      InsertPlaces(Row(nextId, Stored(record)), rows);
      RemainderAdvances(successful, pruneEvery);
      var grown := Insert(Row(nextId, Stored(record)), rows);
      successful := successful + 1;
      if fate.CommitFails? {
        return false;
      }
      if !(successful > 1 && successful % pruneEvery != 0) {
        assert |grown| <= rowCap ==> grown[..Min(rowCap, |grown|)] == grown;
        grown := grown[..Min(rowCap, |grown|)];
      }
      rows, nextId := grown, nextId + 1;
      return true;
    }

    /** The query run over the index: rows in order, those that meet the clauses, up to the limit. */
    method Walk(q: ListQuery, clauses: seq<Clause>, limit: nat) returns (records: seq<Row>)
      requires limit > 0 && forall row :: MeetsAll(row, clauses) <==> Selects(q, row)
      ensures records == Selected(rows, q)[..Min(limit, |Selected(rows, q)|)]
    {
      records := [];
      for i := 0 to |rows|
        invariant records == Selected(rows[..i], q) && |records| < limit
      {
        assert rows[..i + 1][..i] == rows[..i];
        if MeetsAll(rows[i], clauses) {
          records := records + [rows[i]];
        }
        assert records == Selected(rows[..i + 1], q);
        if |records| == limit {
          SelectedGrows(rows, q, i + 1);
          return;
        }
      }
      assert rows[..|rows|] == rows;
    }

    method ListRecent(q: ListQuery) returns (records: seq<Row>)
      requires Valid()
      ensures IsPage(rows, q, records) && |records| <= if q.limit <= 0 then 50 else q.limit
      ensures forall i, j | 0 <= i < j < |records| ::
                || records[i].record.occurredAtMs > records[j].record.occurredAtMs
                || (records[i].record.occurredAtMs == records[j].record.occurredAtMs && records[i].id > records[j].id)
      ensures records == Selected(rows, q)[..Min(LimitOf(q), |Selected(rows, q)|)]
    {
      var limit := if q.limit <= 0 then DEFAULT_LIMIT else q.limit;
      var clauses := Where(q);
      records := Walk(q, clauses, limit);
      WalkIsPage(rows, q);
    }

    /** The count ignores the limit: it is the length of the list the pages are cut from. */
    method CountMatching(q: ListQuery) returns (count: nat)
      requires Valid()
      ensures count == |Selected(rows, q)|
    {
      var clauses := Where(q);
      count := 0;
      for i := 0 to |rows|
        invariant count == |Selected(rows[..i], q)|
      {
        assert rows[..i + 1][..i] == rows[..i];
        if MeetsAll(rows[i], clauses) {
          count := count + 1;
        }
      }
      assert rows[..|rows|] == rows;
    }
  }
}
