/** Paging through the stored rows of a Job: the offset pages and the keyset cursors of
    cgi-bin/src/db/data-viewer.js against slices of one sorted list.

    Times of rows are nanoseconds, times of requests milliseconds. A query is filter, sort and
    slice over the rows of a table. */
module Paging {
  import opened Options
  import opened Text

  const MAX_TOTAL_ROWS: int := 1000000
  const MAX_PAGE: int := 1000000
  const NS_PER_MS: int := 1000000

  type Positive = n: int | n >= 1 witness 1

  datatype Row = Row(time: int, name: string, value: string)

  datatype ViewerRow = ViewerRow(name: string, timeMs: int, value: string)

  datatype Direction = Latest | Oldest

  datatype Side = Next | Prev

  /** The fields of a request that matter here; dates are already read. */
  datatype Request = Request(pageSize: Option<int>, page: Option<int>, direction: Direction, boundedRange: bool,
                             cursorSide: Option<Side>, cursorTime: Option<int>, cursorName: Option<string>,
                             cursorOffset: Option<int>, from: Option<int>, to: Option<int>)

  datatype Cursor = Cursor(side: Side, timeMs: int, name: string)

  datatype Params = Params(names: seq<string>, direction: Direction, page: Positive, pageSize: Positive,
                           boundedRange: bool, cursor: Option<Cursor>, cursorOffset: nat,
                           from: Option<int>, to: Option<int>)

  // ---------------------------------------------------------------- requests

  function Within(value: Option<int>, fallback: int, minimum: int, maximum: int): Option<int> {
    var number := if value.Some? then value.value else fallback;
    if minimum <= number <= maximum then Some(number) else None
  }

  predicate InRange(value: Option<int>, minimum: int, maximum: int) {
    value.Some? ==> minimum <= value.value <= maximum
  }

  /** The numbers are in their ranges, the dates in order, and the cursor fields come together. */
  predicate Acceptable(q: Request) {
    InRange(q.pageSize, 1, MAX_TOTAL_ROWS) && InRange(q.page, 1, MAX_PAGE) && InRange(q.cursorOffset, 0, MAX_TOTAL_ROWS)
    && (q.from.Some? && q.to.Some? ==> q.from.value <= q.to.value)
    && (q.cursorTime.Some? <==> q.cursorSide.Some?)
    && (q.cursorName.Some? || q.cursorOffset.Some? ==> q.cursorSide.Some?)
  }

  /** A number is the one that was asked for, or the default. */
  predicate Given(asked: Option<int>, number: int, default: int) {
    if asked.Some? then asked.value == number else number == default
  }

  /** opcuaPageParams; None where it throws. */
  function PageParams(names: seq<string>, q: Request): (r: Option<Params>)
    ensures r.Some? <==> Acceptable(q)
    ensures r.Some? ==>
              r.value.names == names && r.value.direction == q.direction && r.value.boundedRange == q.boundedRange
              && r.value.from == q.from && r.value.to == q.to
    ensures r.Some? ==> Given(q.pageSize, r.value.pageSize, 100) && Given(q.page, r.value.page, 1)
                        && Given(q.cursorOffset, r.value.cursorOffset, 0)
    ensures r.Some? ==> r.value.cursor.Some? == q.cursorSide.Some?
    ensures r.Some? && q.cursorSide.Some? ==>
              r.value.cursor.value.side == q.cursorSide.value && q.cursorTime == Some(r.value.cursor.value.timeMs)
              && r.value.cursor.value.name == (if q.cursorName.Some? then q.cursorName.value else "")
  {
    var pageSize := Within(q.pageSize, 100, 1, MAX_TOTAL_ROWS);
    var page := Within(q.page, 1, 1, MAX_PAGE);
    var offset := Within(q.cursorOffset, 0, 0, MAX_TOTAL_ROWS);
    if pageSize.None? || page.None? then None else
    if q.from.Some? && q.to.Some? && q.from.value > q.to.value then None else
    if q.cursorSide.Some? && q.cursorTime.None? then None else
    if q.cursorSide.None? && (q.cursorTime.Some? || q.cursorName.Some? || q.cursorOffset.Some?) then None else
    if offset.None? then None else
    var name := if q.cursorName.Some? then q.cursorName.value else "";
    Some(Params(names, q.direction, page.value, pageSize.value, q.boundedRange,
                if q.cursorSide.Some? then Some(Cursor(q.cursorSide.value, q.cursorTime.value, name)) else None,
                offset.value, q.from, q.to))
  }

  // ---------------------------------------------------------------- queries

  datatype Key = Key(time: int, name: string)

  datatype Order = Order(timeAscending: bool, nameAscending: bool)

  function KeyOf(r: Row): Key { Key(r.time, r.name) }

  predicate Before(o: Order, a: Key, b: Key) {
    if a.time != b.time then (if o.timeAscending then a.time < b.time else a.time > b.time)
    else if o.nameAscending then Less(a.name, b.name) else Less(b.name, a.name)
  }

  datatype Clause =
    | NameIn(names: seq<string>)
    | TimeFrom(ms: int)
    | TimeTo(ms: int)
    | Past(timeGreater: bool, nameGreater: bool, ms: int, name: string)

  predicate Holds(c: Clause, r: Row) {
    match c
    case NameIn(names) => r.name in names
    case TimeFrom(ms) => r.time >= ms * NS_PER_MS
    case TimeTo(ms) => r.time <= ms * NS_PER_MS
    case Past(timeGreater, nameGreater, ms, name) =>
      (if timeGreater then r.time > ms * NS_PER_MS else r.time < ms * NS_PER_MS)
      || (r.time == ms * NS_PER_MS && if nameGreater then Less(name, r.name) else Less(r.name, name))
  }

  predicate HoldsAll(cs: seq<Clause>, r: Row) { forall c <- cs :: Holds(c, r) }

  function Filter(cs: seq<Clause>, rows: seq<Row>): seq<Row> {
    if rows == [] then []
    else if HoldsAll(cs, rows[0]) then [rows[0]] + Filter(cs, rows[1..])
    else Filter(cs, rows[1..])
  }

  function Insert(o: Order, r: Row, rows: seq<Row>): seq<Row> {
    if rows == [] || !Before(o, KeyOf(rows[0]), KeyOf(r)) then [r] + rows
    else [rows[0]] + Insert(o, r, rows[1..])
  }

  function SortBy(o: Order, rows: seq<Row>): seq<Row> {
    if rows == [] then [] else Insert(o, rows[0], SortBy(o, rows[1..]))
  }

  function Clip(n: int, length: nat): (r: nat)
    ensures r <= length && (0 <= n <= length ==> r == n)
  {
    if n < 0 then 0 else if n > length then length else n
  }

  /** rows[from..to] with both ends moved into the list. */
  function Slice(rows: seq<Row>, from: int, to: int): seq<Row> {
    if Clip(from, |rows|) <= Clip(to, |rows|) then Cut(rows, Clip(from, |rows|), Clip(to, |rows|)) else []
  }

  function Cut(rows: seq<Row>, a: nat, b: nat): (r: seq<Row>)
    requires a <= b <= |rows|
    ensures |r| == b - a
  {
    rows[a..b]
  }

  function Reverse(rows: seq<Row>): (r: seq<Row>)
    ensures |r| == |rows|
  {
    if rows == [] then [] else Reverse(rows[1..]) + [rows[0]]
  }

  lemma {:induction false} ReverseAt(rows: seq<Row>)
    ensures forall i :: 0 <= i < |rows| ==> Reverse(rows)[i] == rows[|rows| - 1 - i]
  {
    if rows == [] {
    } else {
      ReverseAt(rows[1..]);
    }
  }

  /** epochNanosecondsToIso cuts the nanoseconds off toward zero. */
  function Milliseconds(ns: int): int {
    if ns >= 0 then ns / NS_PER_MS else -((-ns) / NS_PER_MS)
  }

  function Show(r: Row): ViewerRow { ViewerRow(r.name, Milliseconds(r.time), r.value) }

  function ShowAll(rows: seq<Row>): (r: seq<ViewerRow>)
    ensures |r| == |rows| && forall i :: 0 <= i < |rows| ==> r[i] == Show(rows[i])
  {
    if rows == [] then [] else [Show(rows[0])] + ShowAll(rows[1..])
  }

  // ---------------------------------------------------------------- what a page is

  /** The order in which rows are displayed. */
  function Display(d: Direction): Order { Order(d.Oldest?, true) }

  function BaseClauses(p: Params): seq<Clause> {
    [NameIn(p.names)] + (if p.from.Some? then [TimeFrom(p.from.value)] else [])
    + (if p.to.Some? then [TimeTo(p.to.value)] else [])
  }

  /** The one list that all pages are slices of. */
  function Listing(table: seq<Row>, p: Params): seq<Row> {
    SortBy(Display(p.direction), Filter(BaseClauses(p), table))
  }

  /** How many rows come before a key, and how many do not come after it. */
  function CountBefore(o: Order, rows: seq<Row>, k: Key): nat {
    if rows == [] || !Before(o, KeyOf(rows[0]), k) then 0 else 1 + CountBefore(o, rows[1..], k)
  }

  function CountUpTo(o: Order, rows: seq<Row>, k: Key): nat {
    if rows == [] || Before(o, k, KeyOf(rows[0])) then 0 else 1 + CountUpTo(o, rows[1..], k)
  }

  function CursorKey(c: Cursor): Key { Key(c.timeMs * NS_PER_MS, c.name) }

  /** A page that begins `offset` rows after a place. */
  function Skip(rows: seq<Row>, start: nat, offset: nat, size: Positive): seq<Row> {
    Slice(rows, start + offset, start + offset + size)
  }

  /** A page that ends `offset` rows before a place. */
  function Back(rows: seq<Row>, end: nat, offset: nat, size: Positive): seq<Row> {
    Slice(rows, end - offset - size, end - offset)
  }

  /** A page of the listing: by number, after a cursor, or before a cursor. */
  function PageOf(rows: seq<Row>, p: Params): seq<Row> {
    match p.cursor
    case None =>
      if p.boundedRange then rows else Slice(rows, (p.page - 1) * p.pageSize, p.page * p.pageSize)
    case Some(c) =>
      match c.side
      case Next =>
        var start := CountUpTo(Display(p.direction), rows, CursorKey(c));
        if p.boundedRange then Slice(rows, start, |rows|)
        else Skip(rows, start, p.cursorOffset, p.pageSize)
      case Prev =>
        var end := CountBefore(Display(p.direction), rows, CursorKey(c));
        if p.boundedRange then Slice(rows, 0, end)
        else Back(rows, end, p.cursorOffset, p.pageSize)
  }

  predicate UniqueKeys(rows: seq<Row>) {
    forall i, j :: 0 <= i < j < |rows| ==> KeyOf(rows[i]) != KeyOf(rows[j])
  }

  // ---------------------------------------------------------------- the page query

  datatype CursorSql = CursorSql(clause: Clause, order: Order, reverse: bool)

  /** opcuaCursor. */
  function OpcuaCursor(d: Direction, c: Cursor): CursorSql {
    if d.Latest? && c.side.Next? then CursorSql(Past(false, true, c.timeMs, c.name), Order(false, true), false)
    else if d.Latest? then CursorSql(Past(true, false, c.timeMs, c.name), Order(true, false), true)
    else if c.side.Next? then CursorSql(Past(true, true, c.timeMs, c.name), Order(true, true), false)
    else CursorSql(Past(false, false, c.timeMs, c.name), Order(false, false), true)
  }

  /** SELECT ... WHERE ... ORDER BY ... [LIMIT offset, count]. */
  function Query(table: seq<Row>, clauses: seq<Clause>, o: Order, limit: Option<(nat, nat)>): seq<Row> {
    var rows := SortBy(o, Filter(clauses, table));
    if limit.Some? then Slice(rows, limit.value.0, limit.value.0 + limit.value.1) else rows
  }

  // ---------------------------------------------------------------- the rows listed

  /** A row that the request asks for: one of the names, within the dates. */
  predicate Wanted(names: seq<string>, from: Option<int>, to: Option<int>, r: Row) {
    && r.name in names
    && (from.Some? ==> from.value * NS_PER_MS <= r.time)
    && (to.Some? ==> r.time <= to.value * NS_PER_MS)
  }

  lemma BaseMeans(p: Params, r: Row)
    ensures HoldsAll(BaseClauses(p), r) <==> Wanted(p.names, p.from, p.to, r)
  {
    var cs := BaseClauses(p);
    assert cs[0] == NameIn(p.names) && (p.from.Some? ==> cs[1] == TimeFrom(p.from.value));
    assert p.to.Some? ==> cs[|cs| - 1] == TimeTo(p.to.value);
    assert NameIn(p.names) in cs && (p.from.Some? ==> TimeFrom(p.from.value) in cs);
    assert p.to.Some? ==> TimeTo(p.to.value) in cs;
    if HoldsAll(cs, r) {
      assert Holds(NameIn(p.names), r);
      assert p.from.Some? ==> Holds(TimeFrom(p.from.value), r);
      assert p.to.Some? ==> Holds(TimeTo(p.to.value), r);
    }
  }

  lemma {:induction false} FilterCounts(cs: seq<Clause>, rows: seq<Row>, r: Row)
    ensures multiset(Filter(cs, rows))[r] == if HoldsAll(cs, r) then multiset(rows)[r] else 0
  {
    hide HoldsAll;
    if rows == [] {
    } else {
      FilterCounts(cs, rows[1..], r);
      assert rows == [rows[0]] + rows[1..];
    }
  }

  lemma {:induction false} InsertCounts(o: Order, r: Row, rows: seq<Row>)
    ensures multiset(Insert(o, r, rows)) == multiset{r} + multiset(rows)
  {
    hide Before;
    if rows == [] || !Before(o, KeyOf(rows[0]), KeyOf(r)) {
    } else {
      InsertCounts(o, r, rows[1..]);
      assert rows == [rows[0]] + rows[1..];
    }
  }

  lemma {:induction false} SortCounts(o: Order, rows: seq<Row>)
    ensures multiset(SortBy(o, rows)) == multiset(rows)
  {
    if rows == [] {
    } else {
      SortCounts(o, rows[1..]);
      InsertCounts(o, rows[0], SortBy(o, rows[1..]));
      assert rows == [rows[0]] + rows[1..];
    }
  }

  /** The listing has every row that was asked for as often as the table has it, and no other row; by
      time in the direction of display, and by name where times are equal. */
  lemma ListingIs(table: seq<Row>, p: Params)
    ensures var l := Listing(table, p);
      && (forall r :: multiset(l)[r] == if Wanted(p.names, p.from, p.to, r) then multiset(table)[r] else 0)
      && (forall i, j :: 0 <= i < j < |l| ==> if p.direction.Oldest? then l[i].time <= l[j].time
                                             else l[i].time >= l[j].time)
      && (forall i, j :: 0 <= i < j < |l| && l[i].time == l[j].time ==>
            l[i].name == l[j].name || Less(l[i].name, l[j].name))
  {
    var l, cs, o := Listing(table, p), BaseClauses(p), Display(p.direction);
    forall r ensures multiset(l)[r] == if Wanted(p.names, p.from, p.to, r) then multiset(table)[r] else 0 {
      SortCounts(o, Filter(cs, table));
      FilterCounts(cs, table, r);
      BaseMeans(p, r);
    }
    SortSorts(o, Filter(cs, table));
    forall i, j | 0 <= i < j < |l| && l[i].time == l[j].time
      ensures l[i].name == l[j].name || Less(l[i].name, l[j].name)
    {
      LessTotal(l[i].name, l[j].name);
    }
  }

  /** Some rows of the table, none more often than it is there, all of them asked for. */
  ghost predicate Selects(table: seq<Row>, names: seq<string>, from: Option<int>, to: Option<int>, rows: seq<Row>) {
    multiset(rows) <= multiset(table) && forall r <- rows :: Wanted(names, from, to, r)
  }

  lemma QuerySelects(table: seq<Row>, p: Params, more: seq<Clause>, o: Order, limit: Option<(nat, nat)>)
    ensures Selects(table, p.names, p.from, p.to, Query(table, BaseClauses(p) + more, o, limit))
    ensures limit.Some? ==> |Query(table, BaseClauses(p) + more, o, limit)| <= limit.value.1
  {
    var cs := BaseClauses(p) + more;
    var all := SortBy(o, Filter(cs, table));
    SortCounts(o, Filter(cs, table));
    forall r ensures multiset(all)[r] <= multiset(table)[r] && (r in all ==> Wanted(p.names, p.from, p.to, r)) {
      FilterCounts(cs, table, r);
      BaseMeans(p, r);
      assert HoldsAll(cs, r) ==> HoldsAll(BaseClauses(p), r);
      assert r in all <==> r in multiset(all);
    }
    if limit.Some? { SliceSelects(all, limit.value.0, limit.value.0 + limit.value.1); }
  }

  lemma SliceSelects(rows: seq<Row>, from: nat, to: nat)
    requires from <= to
    ensures multiset(Slice(rows, from, to)) <= multiset(rows) && |Slice(rows, from, to)| <= to - from
    ensures forall r <- Slice(rows, from, to) :: r in rows
  {
    var a, b := Clip(from, |rows|), Clip(to, |rows|);
    assert rows == rows[..a] + rows[a..b] + rows[b..];
  }

  lemma {:induction false} ReverseCounts(rows: seq<Row>)
    ensures multiset(Reverse(rows)) == multiset(rows)
  {
    if rows == [] {
    } else {
      ReverseCounts(rows[1..]);
      assert rows == [rows[0]] + rows[1..];
    }
  }

  /** So has every page, whatever the keys of the rows; and it is no longer than was asked for. */
  lemma FetchedSelects(table: seq<Row>, p: Params)
    ensures Selects(table, p.names, p.from, p.to, Fetched(table, p))
    ensures !p.boundedRange ==> |Fetched(table, p)| <= p.pageSize
  {
    hide Selects, BaseClauses, Query;
    if p.cursor.None? {
      assert BaseClauses(p) + [] == BaseClauses(p);
      QuerySelects(table, p, [], Display(p.direction), LimitOf(p));
    } else {
      var sql := OpcuaCursor(p.direction, p.cursor.value);
      QuerySelects(table, p, [sql.clause], sql.order, LimitOf(p));
      ReverseSelects(table, p, Query(table, BaseClauses(p) + [sql.clause], sql.order, LimitOf(p)));
    }
  }

  lemma ReverseSelects(table: seq<Row>, p: Params, rows: seq<Row>)
    requires Selects(table, p.names, p.from, p.to, rows)
    ensures Selects(table, p.names, p.from, p.to, Reverse(rows))
  {
    ReverseCounts(rows);
    assert forall r :: r in Reverse(rows) <==> r in multiset(Reverse(rows));
  }

  /** A row as it is shown: name and value as stored, the time cut to milliseconds toward zero. */
  predicate ShownAs(r: Row, v: ViewerRow) {
    && v.name == r.name && v.value == r.value
    && (if r.time >= 0 then v.timeMs * NS_PER_MS <= r.time < (v.timeMs + 1) * NS_PER_MS
        else (v.timeMs - 1) * NS_PER_MS < r.time <= v.timeMs * NS_PER_MS)
  }

  ghost predicate AllShownAs(rows: seq<Row>, shown: seq<ViewerRow>) {
    |shown| == |rows| && forall i :: 0 <= i < |rows| ==> ShownAs(rows[i], shown[i])
  }

  lemma ShowMeans(rows: seq<Row>)
    ensures AllShownAs(rows, ShowAll(rows))
  {
  }

  /** opcuaPage. For rows with unique keys every page is the slice that PageOf names; without
      them that is still so unless the scan runs backwards. */
  method OpcuaPage(table: seq<Row>, names: seq<string>, q: Request) returns (r: Option<seq<ViewerRow>>)
    ensures r.None? <==> PageParams(names, q).None?
    ensures r.Some? && (UniqueKeys(table) || q.cursorSide != Some(Prev)) ==>
              var p := PageParams(names, q).value;
              r.value == ShowAll(PageOf(Listing(table, p), p))
    ensures r.Some? ==> exists rows :: Selects(table, names, q.from, q.to, rows) && AllShownAs(rows, r.value)
    ensures r.Some? && !q.boundedRange ==> |r.value| <= if q.pageSize.Some? then q.pageSize.value else 100
  {
    hide PageParams, Filter, SortBy, Reverse, UniqueKeys, ShowAll, Slice, PageOf, Selects, AllShownAs;
    var parsed := PageParams(names, q);
    if parsed.None? { return None; }
    var p := parsed.value;
    var clauses := [NameIn(p.names)];
    if p.from.Some? { clauses := clauses + [TimeFrom(p.from.value)]; }
    if p.to.Some? { clauses := clauses + [TimeTo(p.to.value)]; }
    assert clauses == BaseClauses(p);
    var order := Order(p.direction.Oldest?, true);
    var reverse := false;
    if p.cursor.Some? {
      var cursor := OpcuaCursor(p.direction, p.cursor.value);
      clauses := clauses + [cursor.clause];
      order := cursor.order;
      reverse := cursor.reverse;
    }
    var limit: Option<(nat, nat)> := None;
    if !p.boundedRange {
      limit := Some((if p.cursor.Some? then p.cursorOffset else (p.page - 1) * p.pageSize, p.pageSize));
    }
    var rows := Query(table, clauses, order, limit);
    if reverse { rows := Reverse(rows); }
    assert rows == Fetched(table, p);
    if UniqueKeys(table) || q.cursorSide != Some(Prev) { FetchedIsPage(table, p); }
    FetchedSelects(table, p);
    ShowMeans(rows);
    return Some(ShowAll(rows));
  }

  /** The rows that opcuaPage takes from the table, in the order of display. */
  function Fetched(table: seq<Row>, p: Params): seq<Row> {
    match p.cursor
    case None => Query(table, BaseClauses(p), Order(p.direction.Oldest?, true), LimitOf(p))
    case Some(c) =>
      var sql := OpcuaCursor(p.direction, c);
      var rows := Query(table, BaseClauses(p) + [sql.clause], sql.order, LimitOf(p));
      if sql.reverse then Reverse(rows) else rows
  }

  function LimitOf(p: Params): Option<(nat, nat)> {
    if p.boundedRange then None
    else Some((if p.cursor.Some? then p.cursorOffset else (p.page - 1) * p.pageSize, p.pageSize))
  }

  // ---------------------------------------------------------------- order

  lemma BeforeTotal(o: Order, a: Key, b: Key)
    ensures Before(o, a, b) || a == b || Before(o, b, a)
    ensures !(Before(o, a, b) && Before(o, b, a))
  {
    LessTotal(a.name, b.name);
  }

  lemma BeforeTransitive(o: Order, a: Key, b: Key, c: Key)
    requires Before(o, a, b) && Before(o, b, c)
    ensures Before(o, a, c)
  {
    if a.time == b.time == c.time {
      if o.nameAscending { LessTransitive(a.name, b.name, c.name); } else { LessTransitive(c.name, b.name, a.name); }
    }
  }

  /** "Not after" is transitive too. */
  lemma UpToTransitive(o: Order, a: Key, b: Key, c: Key)
    requires !Before(o, b, a) && !Before(o, c, b)
    ensures !Before(o, c, a)
  {
    BeforeTotal(o, a, b);
    BeforeTotal(o, b, c);
    BeforeTotal(o, a, c);
    if Before(o, a, b) && Before(o, b, c) { BeforeTransitive(o, a, b, c); }
  }

  function Flip(o: Order): Order { Order(!o.timeAscending, !o.nameAscending) }

  predicate Sorted(o: Order, rows: seq<Row>) {
    forall i, j :: 0 <= i < j < |rows| ==> !Before(o, KeyOf(rows[j]), KeyOf(rows[i]))
  }

  predicate Strict(o: Order, rows: seq<Row>) {
    forall i, j :: 0 <= i < j < |rows| ==> Before(o, KeyOf(rows[i]), KeyOf(rows[j]))
  }

  lemma StrictSorted(o: Order, rows: seq<Row>)
    requires Strict(o, rows)
    ensures Sorted(o, rows)
  {
    forall i, j | 0 <= i < j < |rows| ensures !Before(o, KeyOf(rows[j]), KeyOf(rows[i])) {
      BeforeTotal(o, KeyOf(rows[i]), KeyOf(rows[j]));
    }
  }

  // ---------------------------------------------------------------- sorting

  lemma {:induction false} InsertKeeps(o: Order, r: Row, rows: seq<Row>)
    requires Sorted(o, rows)
    ensures |Insert(o, r, rows)| == |rows| + 1
    ensures Sorted(o, Insert(o, r, rows))
    ensures forall x :: x in Insert(o, r, rows) <==> x == r || x in rows
  {
    hide Before;
    if rows == [] {
    } else if !Before(o, KeyOf(rows[0]), KeyOf(r)) {
      forall j | 0 <= j < |rows| ensures !Before(o, KeyOf(rows[j]), KeyOf(r)) {
        if j > 0 { UpToTransitive(o, KeyOf(r), KeyOf(rows[0]), KeyOf(rows[j])); }
      }
    } else {
      var rest := Insert(o, r, rows[1..]);
      InsertKeeps(o, r, rows[1..]);
      BeforeTotal(o, KeyOf(rows[0]), KeyOf(r));
      assert rows == [rows[0]] + rows[1..];
      forall j | 0 <= j < |rest| ensures !Before(o, KeyOf(rest[j]), KeyOf(rows[0])) {
        assert rest[j] in rest;
        if rest[j] != r {
          var k :| 0 <= k < |rows[1..]| && rows[1..][k] == rest[j];
          assert rows[k + 1] == rest[j];
        }
      }
    }
  }

  lemma {:induction false} SortSorts(o: Order, rows: seq<Row>)
    ensures |SortBy(o, rows)| == |rows|
    ensures Sorted(o, SortBy(o, rows))
    ensures forall x :: x in SortBy(o, rows) <==> x in rows
  {
    if rows == [] {
    } else {
      SortSorts(o, rows[1..]);
      InsertKeeps(o, rows[0], SortBy(o, rows[1..]));
      assert rows == [rows[0]] + rows[1..];
    }
  }

  lemma {:induction false} InsertStrict(o: Order, r: Row, rows: seq<Row>)
    requires Strict(o, rows) && forall x <- rows :: KeyOf(x) != KeyOf(r)
    ensures Strict(o, Insert(o, r, rows))
  {
    hide Before;
    StrictSorted(o, rows);
    if rows == [] {
    } else if !Before(o, KeyOf(rows[0]), KeyOf(r)) {
      assert rows[0] in rows;
      BeforeTotal(o, KeyOf(r), KeyOf(rows[0]));
      forall j | 0 <= j < |rows| ensures Before(o, KeyOf(r), KeyOf(rows[j])) {
        if j > 0 { BeforeTransitive(o, KeyOf(r), KeyOf(rows[0]), KeyOf(rows[j])); }
      }
    } else {
      var rest := Insert(o, r, rows[1..]);
      InsertStrict(o, r, rows[1..]);
      StrictSorted(o, rows[1..]);
      InsertKeeps(o, r, rows[1..]);
      forall j | 0 <= j < |rest| ensures Before(o, KeyOf(rows[0]), KeyOf(rest[j])) {
        assert rest[j] in rest;
        if rest[j] != r {
          var k :| 0 <= k < |rows[1..]| && rows[1..][k] == rest[j];
          assert rows[k + 1] == rest[j];
        }
      }
    }
  }

  lemma {:induction false} SortStrict(o: Order, rows: seq<Row>)
    requires UniqueKeys(rows)
    ensures Strict(o, SortBy(o, rows))
  {
    if rows == [] {
    } else {
      var tail := rows[1..];
      assert forall i :: 0 <= i < |tail| ==> tail[i] == rows[i + 1];
      SortStrict(o, tail);
      SortSorts(o, tail);
      forall x | x in SortBy(o, tail) ensures KeyOf(x) != KeyOf(rows[0]) {
        var i :| 0 <= i < |tail| && tail[i] == x;
        assert rows[i + 1] == x;
      }
      InsertStrict(o, rows[0], SortBy(o, tail));
    }
  }

  /** Unique keys leave one way to sort. */
  lemma {:induction false} StrictUnique(o: Order, a: seq<Row>, b: seq<Row>)
    requires Strict(o, a) && Strict(o, b) && forall x :: x in a <==> x in b
    ensures a == b
  {
    hide Before;
    if a == [] {
    } else {
      assert a[0] in a;
    }
    if b != [] { assert b[0] in b; }
    if a != [] && b != [] {
      StrictFirst(o, a, b);
      var s, t := a[1..], b[1..];
      forall x ensures x in s <==> x in t {
        StrictRest(o, a, x);
        StrictRest(o, b, x);
      }
      StrictUnique(o, s, t);
      assert a == [a[0]] + s && b == [b[0]] + t;
    }
  }

  lemma StrictFirst(o: Order, a: seq<Row>, b: seq<Row>)
    requires Strict(o, a) && Strict(o, b) && a != [] && b != [] && a[0] in b && b[0] in a
    ensures a[0] == b[0]
  {
    hide Before;
    var i :| 0 <= i < |b| && b[i] == a[0];
    var k :| 0 <= k < |a| && a[k] == b[0];
    BeforeTotal(o, KeyOf(a[0]), KeyOf(b[0]));
  }

  lemma StrictRest(o: Order, a: seq<Row>, x: Row)
    requires Strict(o, a) && a != []
    ensures x in a[1..] <==> x in a && x != a[0]
  {
    hide Before;
    if x in a[1..] {
      var k :| 0 <= k < |a[1..]| && a[1..][k] == x;
      assert a[k + 1] == x;
      BeforeTotal(o, KeyOf(a[0]), KeyOf(a[k + 1]));
    }
    assert a == [a[0]] + a[1..];
  }

  lemma FlipStrict(o: Order, rows: seq<Row>)
    requires Strict(o, rows)
    ensures Strict(Flip(o), Reverse(rows))
    ensures forall x :: x in Reverse(rows) <==> x in rows
  {
    ReverseAt(rows);
    hide Reverse;
    forall x ensures x in Reverse(rows) <==> x in rows {
      if x in rows {
        var i :| 0 <= i < |rows| && rows[i] == x;
        assert Reverse(rows)[|rows| - 1 - i] == x;
      }
    }
  }

  /** Sorting the other way round is reversing. */
  lemma SortFlipped(o: Order, rows: seq<Row>)
    requires UniqueKeys(rows)
    ensures SortBy(Flip(o), rows) == Reverse(SortBy(o, rows))
  {
    SortStrict(o, rows);
    SortStrict(Flip(o), rows);
    SortSorts(o, rows);
    SortSorts(Flip(o), rows);
    FlipStrict(o, SortBy(o, rows));
    StrictUnique(Flip(o), SortBy(Flip(o), rows), Reverse(SortBy(o, rows)));
  }

  // ---------------------------------------------------------------- filtering

  lemma {:induction false} FilterTwice(cs: seq<Clause>, c: Clause, rows: seq<Row>)
    ensures Filter(cs + [c], rows) == Filter([c], Filter(cs, rows))
  {
    if rows == [] {
    } else {
      FilterTwice(cs, c, rows[1..]);
      assert HoldsAll(cs + [c], rows[0]) <==> HoldsAll(cs, rows[0]) && Holds(c, rows[0]);
      assert HoldsAll([c], rows[0]) <==> Holds(c, rows[0]);
    }
  }

  lemma {:induction false} FilterUnique(cs: seq<Clause>, rows: seq<Row>)
    requires UniqueKeys(rows)
    ensures UniqueKeys(Filter(cs, rows))
    ensures forall x <- Filter(cs, rows) :: x in rows
  {
    if rows == [] {
    } else {
      var tail := rows[1..];
      assert forall i :: 0 <= i < |tail| ==> tail[i] == rows[i + 1];
      FilterUnique(cs, tail);
      var kept := Filter(cs, tail);
      forall i | 0 <= i < |kept| ensures KeyOf(kept[i]) != KeyOf(rows[0]) {
        assert kept[i] in kept;
        var k :| 0 <= k < |tail| && tail[k] == kept[i];
        assert rows[k + 1] == kept[i];
      }
    }
  }

  lemma {:induction false} FilterMembers(cs: seq<Clause>, rows: seq<Row>)
    ensures forall x :: x in Filter(cs, rows) <==> x in rows && HoldsAll(cs, x)
  {
    if rows == [] {
    } else {
      FilterMembers(cs, rows[1..]);
      assert rows == [rows[0]] + rows[1..];
    }
  }

  lemma {:induction false} InsertFilter(o: Order, c: Clause, r: Row, rows: seq<Row>)
    requires Sorted(o, rows)
    ensures Filter([c], Insert(o, r, rows))
            == if Holds(c, r) then Insert(o, r, Filter([c], rows)) else Filter([c], rows)
  {
    hide Before, Holds;
    assert forall x :: HoldsAll([c], x) <==> Holds(c, x) by { HoldsOne(c); }
    if rows == [] {
      assert [r] + rows == [r];
    } else if !Before(o, KeyOf(rows[0]), KeyOf(r)) {
      assert ([r] + rows)[1..] == rows;
      var kept := Filter([c], rows);
      if kept != [] {
        FilterMembers([c], rows);
        assert kept[0] in kept;
        var k :| 0 <= k < |rows| && rows[k] == kept[0];
        if k > 0 { UpToTransitive(o, KeyOf(r), KeyOf(rows[0]), KeyOf(rows[k])); }
      }
    } else {
      InsertFilter(o, c, r, rows[1..]);
      var rest := Insert(o, r, rows[1..]);
      assert ([rows[0]] + rest)[1..] == rest;
      if Holds(c, rows[0]) { assert ([rows[0]] + Filter([c], rows[1..]))[1..] == Filter([c], rows[1..]); }
    }
  }

  lemma HoldsOne(c: Clause)
    ensures forall x :: HoldsAll([c], x) <==> Holds(c, x)
  {
  }

  /** Sorting what is left of the rows leaves the same of the sorted rows. */
  lemma {:induction false} SortFilter(o: Order, c: Clause, rows: seq<Row>)
    ensures SortBy(o, Filter([c], rows)) == Filter([c], SortBy(o, rows))
  {
    HoldsOne(c);
    hide Holds;
    if rows == [] {
    } else {
      SortFilter(o, c, rows[1..]);
      SortSorts(o, rows[1..]);
      InsertFilter(o, c, rows[0], SortBy(o, rows[1..]));
      var kept := Filter([c], rows[1..]);
      assert ([rows[0]] + kept)[1..] == kept;
    }
  }

  // ---------------------------------------------------------------- cursors

  /** The clause of a cursor holds of the rows past its key in the order of its scan. */
  lemma CursorClause(d: Direction, c: Cursor, r: Row)
    ensures var sql := OpcuaCursor(d, c);
      Holds(sql.clause, r) <==> Before(sql.order, CursorKey(c), KeyOf(r))
    ensures OpcuaCursor(d, c).order == if c.side.Next? then Display(d) else Flip(Display(d))
    ensures OpcuaCursor(d, c).reverse <==> c.side.Prev?
  {
  }

  lemma {:induction false} CountUpToIs(o: Order, rows: seq<Row>, k: Key)
    requires Sorted(o, rows)
    ensures CountUpTo(o, rows, k) <= |rows|
    ensures forall i :: 0 <= i < |rows| ==> (Before(o, k, KeyOf(rows[i])) <==> i >= CountUpTo(o, rows, k))
  {
    hide Before;
    if rows == [] {
    } else {
      var tail := rows[1..];
      if Before(o, k, KeyOf(rows[0])) {
        forall i | 0 <= i < |rows| ensures Before(o, k, KeyOf(rows[i])) {
          if i > 0 { BeforeUpTo(o, k, KeyOf(rows[0]), KeyOf(rows[i])); }
        }
      } else {
        CountUpToIs(o, tail, k);
        forall i | 0 < i < |rows| ensures Before(o, k, KeyOf(rows[i])) <==> i >= CountUpTo(o, rows, k) {
          assert rows[i] == tail[i - 1];
        }
      }
    }
  }

  lemma BeforeUpTo(o: Order, a: Key, b: Key, c: Key)
    requires Before(o, a, b) && !Before(o, c, b)
    ensures Before(o, a, c)
  {
    BeforeTotal(o, b, c);
    if Before(o, b, c) { BeforeTransitive(o, a, b, c); }
  }

  lemma UpToBefore(o: Order, a: Key, b: Key, c: Key)
    requires !Before(o, b, a) && Before(o, b, c)
    ensures Before(o, a, c)
  {
    BeforeTotal(o, a, b);
    if Before(o, a, b) { BeforeTransitive(o, a, b, c); }
  }

  lemma {:induction false} CountBeforeIs(o: Order, rows: seq<Row>, k: Key)
    requires Sorted(o, rows)
    ensures CountBefore(o, rows, k) <= |rows|
    ensures forall i :: 0 <= i < |rows| ==> (Before(o, KeyOf(rows[i]), k) <==> i < CountBefore(o, rows, k))
  {
    hide Before;
    if rows == [] {
    } else {
      var tail := rows[1..];
      if !Before(o, KeyOf(rows[0]), k) {
        forall i | 0 <= i < |rows| ensures !Before(o, KeyOf(rows[i]), k) {
          if i > 0 && Before(o, KeyOf(rows[i]), k) { UpToBefore(o, KeyOf(rows[0]), KeyOf(rows[i]), k); }
        }
      } else {
        CountBeforeIs(o, tail, k);
        forall i | 0 < i < |rows| ensures Before(o, KeyOf(rows[i]), k) <==> i < CountBefore(o, rows, k) {
          assert rows[i] == tail[i - 1];
        }
      }
    }
  }

  /** Filtering a list by a clause that holds from some place on leaves its end. */
  lemma {:induction false} FilterSuffix(c: Clause, rows: seq<Row>, n: nat)
    requires n <= |rows|
    requires forall i :: 0 <= i < |rows| ==> (Holds(c, rows[i]) <==> i >= n)
    ensures Filter([c], rows) == rows[n..]
  {
    HoldsOne(c);
    hide Holds;
    if rows == [] {
    } else {
      var tail := rows[1..];
      assert forall i :: 0 <= i < |tail| ==> tail[i] == rows[i + 1];
      FilterSuffix(c, tail, if n > 0 then n - 1 else 0);
      assert rows == [rows[0]] + tail;
      if n == 0 { assert Holds(c, rows[0]); } else { assert !Holds(c, rows[0]); }
    }
  }

  // ---------------------------------------------------------------- pages

  lemma ReverseSlice(rows: seq<Row>, from: int, to: int)
    requires from <= to
    ensures Reverse(Slice(Reverse(rows), from, to)) == Slice(rows, |rows| - to, |rows| - from)
  {
    hide *;
    var n := |rows|;
    SliceIs(Reverse(rows), from, to);
    ReverseCut(rows, Clip(from, n), Clip(to, n));
    ClipBack(n, from);
    ClipBack(n, to);
    SliceIs(rows, n - to, n - from);
  }

  lemma SliceIs(rows: seq<Row>, from: int, to: int)
    requires from <= to
    ensures Clip(from, |rows|) <= Clip(to, |rows|)
              && Slice(rows, from, to) == Cut(rows, Clip(from, |rows|), Clip(to, |rows|))
  {
    hide Cut;
  }

  lemma ClipBack(length: nat, n: int)
    ensures Clip(length - n, length) == length - Clip(n, length)
  {
  }

  lemma ReverseCut(rows: seq<Row>, a: nat, b: nat)
    requires a <= b <= |rows|
    ensures Reverse(Cut(Reverse(rows), a, b)) == Cut(rows, |rows| - b, |rows| - a)
  {
    hide *;
    var front, middle, end := Pieces(rows, |rows| - b, |rows| - a);
    ReverseJoin(front, middle + end);
    ReverseJoin(middle, end);
    Middle(Reverse(end), Reverse(middle), Reverse(front));
    ReverseTwice(middle);
  }

  lemma Pieces(rows: seq<Row>, i: nat, j: nat) returns (front: seq<Row>, middle: seq<Row>, end: seq<Row>)
    requires i <= j <= |rows|
    ensures rows == front + (middle + end) && |front| == i && |end| == |rows| - j && middle == Cut(rows, i, j)
  {
    front, middle, end := rows[..i], rows[i..j], rows[j..];
  }

  lemma Middle(x: seq<Row>, y: seq<Row>, z: seq<Row>)
    ensures Cut(x + y + z, |x|, |x| + |y|) == y
  {
  }

  lemma {:induction false} ReverseJoin(x: seq<Row>, y: seq<Row>)
    ensures Reverse(x + y) == Reverse(y) + Reverse(x)
  {
    if x == [] {
      assert x + y == y;
    } else {
      ReverseJoin(x[1..], y);
      assert (x + y)[1..] == x[1..] + y;
    }
  }

  lemma {:induction false} ReverseTwice(x: seq<Row>)
    ensures Reverse(Reverse(x)) == x
  {
    if x == [] {
    } else {
      ReverseJoin(Reverse(x[1..]), [x[0]]);
      ReverseTwice(x[1..]);
      assert Reverse([x[0]]) == [x[0]];
    }
  }

  lemma SliceSuffix(rows: seq<Row>, n: nat, from: nat, to: nat)
    requires n <= |rows| && from <= to
    ensures Slice(rows[n..], from, to) == Slice(rows, n + from, n + to)
  {
  }

  /** The query and its reversal give the slice of the listing. */
  lemma FetchedIsPage(table: seq<Row>, p: Params)
    requires UniqueKeys(table) || (p.cursor.Some? ==> p.cursor.value.side.Next?)
    ensures Fetched(table, p) == PageOf(Listing(table, p), p)
  {
    hide Before, Holds, Filter, SortBy;
    if p.cursor.Some? {
      var c := p.cursor.value;
      var sql := OpcuaCursor(p.direction, c);
      var base := Filter(BaseClauses(p), table);
      var scan := SortBy(sql.order, base);
      FilterTwice(BaseClauses(p), sql.clause, table);
      SortFilter(sql.order, sql.clause, base);
      SortSorts(sql.order, base);
      forall r ensures Holds(sql.clause, r) <==> Before(sql.order, CursorKey(c), KeyOf(r)) {
        CursorClause(p.direction, c, r);
      }
      CountUpToIs(sql.order, scan, CursorKey(c));
      var n := CountUpTo(sql.order, scan, CursorKey(c));
      FilterSuffix(sql.clause, scan, n);
      CursorClause(p.direction, c, Row(0, "", ""));
      if c.side.Prev? {
        FilterUnique(BaseClauses(p), table);
        PrevIsPage(table, p, base, n);
      } else {
        NextIsPage(table, p, base, n);
      }
    }
  }

  lemma NextIsPage(table: seq<Row>, p: Params, base: seq<Row>, n: nat)
    requires p.cursor.Some? && p.cursor.value.side.Next?
    requires base == Filter(BaseClauses(p), table)
    requires n <= |SortBy(Display(p.direction), base)|
    requires n == CountUpTo(Display(p.direction), SortBy(Display(p.direction), base), CursorKey(p.cursor.value))
    ensures (if LimitOf(p).Some? then Slice(SortBy(Display(p.direction), base)[n..], LimitOf(p).value.0,
              LimitOf(p).value.0 + LimitOf(p).value.1)
             else SortBy(Display(p.direction), base)[n..])
            == PageOf(Listing(table, p), p)
  {
    hide Filter, SortBy, CountUpTo;
    var rows := Listing(table, p);
    SliceSuffix(rows, n, p.cursorOffset, p.cursorOffset + p.pageSize);
  }

  lemma PrevIsPage(table: seq<Row>, p: Params, base: seq<Row>, n: nat)
    requires p.cursor.Some? && p.cursor.value.side.Prev?
    requires base == Filter(BaseClauses(p), table) && UniqueKeys(base)
    requires n <= |SortBy(Flip(Display(p.direction)), base)|
    requires n == CountUpTo(Flip(Display(p.direction)), SortBy(Flip(Display(p.direction)), base),
              CursorKey(p.cursor.value))
    ensures Reverse(if LimitOf(p).Some? then Slice(SortBy(Flip(Display(p.direction)), base)[n..], LimitOf(p).value.0,
              LimitOf(p).value.0 + LimitOf(p).value.1)
                    else SortBy(Flip(Display(p.direction)), base)[n..])
            == PageOf(Listing(table, p), p)
  {
    hide Before, Filter, SortBy, Reverse, CountUpTo, CountBefore, Sorted, UniqueKeys, Slice;
    var o, k := Display(p.direction), CursorKey(p.cursor.value);
    var rows := Listing(table, p);
    SortFlipped(o, base);
    SortSorts(o, base);
    CountsMeet(o, rows, k);
    SliceSuffix(Reverse(rows), n, p.cursorOffset, p.cursorOffset + p.pageSize);
    ReverseSlice(rows, n + p.cursorOffset, n + p.cursorOffset + p.pageSize);
    ReverseCut(rows, n, |rows|);
    assert Cut(Reverse(rows), n, |rows|) == Reverse(rows)[n..];
    WholeSlice(rows, |rows| - n);
  }

  lemma WholeSlice(rows: seq<Row>, end: nat)
    requires end <= |rows|
    ensures Slice(rows, 0, end) == Cut(rows, 0, end)
  {
  }

  /** Counted from either end, the rows before a key and the others make up the list. */
  lemma CountsMeet(o: Order, rows: seq<Row>, k: Key)
    requires Sorted(o, rows)
    ensures CountBefore(o, rows, k) + CountUpTo(Flip(o), Reverse(rows), k) == |rows|
  {
    var back := Reverse(rows);
    ReverseAt(rows);
    hide Reverse;
    forall a, b ensures Before(Flip(o), a, b) <==> Before(o, b, a) { }
    assert Sorted(Flip(o), back);
    hide Before;
    CountBeforeIs(o, rows, k);
    CountUpToIs(Flip(o), back, k);
    var m, n := CountBefore(o, rows, k), CountUpTo(Flip(o), back, k);
    if n < |rows| { assert back[n] == rows[|rows| - 1 - n]; }
    if n > 0 { assert back[n - 1] == rows[|rows| - n]; }
  }

  // ---------------------------------------------------------------- what PageOf names

  function MaxOf(a: int, b: int): int { if a < b then b else a }

  function MinOf(a: int, b: int): int { if a < b then a else b }

  /** The page consists of the rows at the places from `start` on, `size` of them as far as there are. */
  predicate Window(rows: seq<Row>, page: seq<Row>, start: int, size: nat) {
    var first := MaxOf(start, 0);
    && |page| == MaxOf(MinOf(start + size, |rows|) - first, 0)
    && forall i :: 0 <= i < |page| ==> page[i] == rows[first + i]
  }

  /** Where a row stands to a cursor in the order of display. */
  predicate AfterCursor(d: Direction, c: Cursor, r: Row) {
    if r.time == c.timeMs * NS_PER_MS then Less(c.name, r.name)
    else if d.Oldest? then c.timeMs * NS_PER_MS < r.time
    else r.time < c.timeMs * NS_PER_MS
  }

  predicate BeforeCursor(d: Direction, c: Cursor, r: Row) {
    if r.time == c.timeMs * NS_PER_MS then Less(r.name, c.name)
    else if d.Oldest? then r.time < c.timeMs * NS_PER_MS
    else c.timeMs * NS_PER_MS < r.time
  }

  /** Page k has the rows from (k - 1) * size on. */
  lemma NumberedPage(rows: seq<Row>, p: Params)
    requires p.cursor.None?
    ensures if p.boundedRange then PageOf(rows, p) == rows
            else Window(rows, PageOf(rows, p), (p.page - 1) * p.pageSize, p.pageSize)
  {
    if !p.boundedRange { SliceWindow(rows, (p.page - 1) * p.pageSize, p.pageSize); }
  }

  lemma SliceWindow(rows: seq<Row>, start: int, size: nat)
    ensures Window(rows, Slice(rows, start, start + size), start, size)
  {
    var a, b := Clip(start, |rows|), Clip(start + size, |rows|);
    assert a <= b && forall i :: 0 <= i < b - a ==> Cut(rows, a, b)[i] == rows[a + i];
  }

  lemma StandsMeans(d: Direction, c: Cursor, r: Row)
    ensures AfterCursor(d, c, r) <==> Before(Display(d), CursorKey(c), KeyOf(r))
    ensures BeforeCursor(d, c, r) <==> Before(Display(d), KeyOf(r), CursorKey(c))
  {
    hide Less;
  }

  /** A cursor stands between the rows of the listing that come up to it and those after it; its next
      page begins after that place, as many rows later as the offset says. */
  lemma NextPage(rows: seq<Row>, p: Params) returns (n: nat)
    requires Sorted(Display(p.direction), rows) && p.cursor.Some? && p.cursor.value.side.Next?
    ensures n <= |rows|
    ensures forall i :: 0 <= i < |rows| ==> (AfterCursor(p.direction, p.cursor.value, rows[i]) <==> i >= n)
    ensures if p.boundedRange then PageOf(rows, p) == rows[n..]
            else Window(rows, PageOf(rows, p), n + p.cursorOffset, p.pageSize)
  {
    hide Sorted, Before, AfterCursor, CountUpTo, Slice, Window;
    n := CountUpTo(Display(p.direction), rows, CursorKey(p.cursor.value));
    CountUpToIs(Display(p.direction), rows, CursorKey(p.cursor.value));
    forall i | 0 <= i < |rows| ensures AfterCursor(p.direction, p.cursor.value, rows[i]) <==> i >= n {
      StandsMeans(p.direction, p.cursor.value, rows[i]);
    }
    WholeEnd(rows, n);
    SliceWindow(rows, n + p.cursorOffset, p.pageSize);
  }

  /** And its previous page ends before the first row that does not come before it. */
  lemma PrevPage(rows: seq<Row>, p: Params) returns (n: nat)
    requires Sorted(Display(p.direction), rows) && p.cursor.Some? && p.cursor.value.side.Prev?
    ensures n <= |rows|
    ensures forall i :: 0 <= i < |rows| ==> (BeforeCursor(p.direction, p.cursor.value, rows[i]) <==> i < n)
    ensures if p.boundedRange then PageOf(rows, p) == rows[..n]
            else Window(rows, PageOf(rows, p), n - p.cursorOffset - p.pageSize, p.pageSize)
  {
    hide Sorted, Before, BeforeCursor, CountBefore, Slice, Window;
    n := CountBefore(Display(p.direction), rows, CursorKey(p.cursor.value));
    CountBeforeIs(Display(p.direction), rows, CursorKey(p.cursor.value));
    forall i | 0 <= i < |rows| ensures BeforeCursor(p.direction, p.cursor.value, rows[i]) <==> i < n {
      StandsMeans(p.direction, p.cursor.value, rows[i]);
    }
    WholeStart(rows, n);
    SliceWindow(rows, n - p.cursorOffset - p.pageSize, p.pageSize);
  }

  lemma WholeEnd(rows: seq<Row>, n: nat)
    requires n <= |rows|
    ensures Slice(rows, n, |rows|) == rows[n..]
  {
    assert rows[n..|rows|] == rows[n..];
  }

  lemma WholeStart(rows: seq<Row>, n: nat)
    requires n <= |rows|
    ensures Slice(rows, 0, n) == rows[..n]
  {
    assert rows[0..n] == rows[..n];
  }

  // ---------------------------------------------------------------- cursors at displayed rows

  /** The same request with the cursor a client takes from a displayed row. */
  function From(p: Params, side: Side, r: Row): Params {
    p.(cursor := Some(Cursor(side, Show(r).timeMs, Show(r).name)))
  }

  /** Where the cursor of a displayed row lies. */
  function ShownKey(r: Row): Key { Key(Milliseconds(r.time) * NS_PER_MS, r.name) }

  predicate Exact(r: Row) { r.time % NS_PER_MS == 0 }

  /** Cutting the time moved the key past neither the row itself nor the next one. */
  predicate NextMeets(d: Direction, rows: seq<Row>, i: nat)
    requires i < |rows|
  {
    var k := ShownKey(rows[i]);
    !Before(Display(d), k, KeyOf(rows[i])) && (i + 1 < |rows| ==> Before(Display(d), k, KeyOf(rows[i + 1])))
  }

  predicate PrevMeets(d: Direction, rows: seq<Row>, i: nat)
    requires i < |rows|
  {
    var k := ShownKey(rows[i]);
    !Before(Display(d), KeyOf(rows[i]), k) && (i > 0 ==> Before(Display(d), KeyOf(rows[i - 1]), k))
  }

  /** A next cursor gives the slice after its row exactly when the cut time still lies there. */
  lemma NextExactly(rows: seq<Row>, p: Params, i: nat)
    requires i < |rows| && Strict(Display(p.direction), rows) && !p.boundedRange
    ensures NextMeets(p.direction, rows, i) ==>
              PageOf(rows, From(p, Next, rows[i])) == Skip(rows, i + 1, p.cursorOffset, p.pageSize)
    ensures p.cursorOffset == 0 && PageOf(rows, From(p, Next, rows[i])) == Slice(rows, i + 1, i + 1 + p.pageSize) ==>
              NextMeets(p.direction, rows, i)
  {
    hide *;
    if NextMeets(p.direction, rows, i) { NextSlice(rows, p, i); }
    if p.cursorOffset == 0 { NextNeeds(rows, p, i); }
  }

  lemma NextSlice(rows: seq<Row>, p: Params, i: nat)
    requires i < |rows| && Strict(Display(p.direction), rows) && !p.boundedRange
    requires NextMeets(p.direction, rows, i)
    ensures PageOf(rows, From(p, Next, rows[i])) == Skip(rows, i + 1, p.cursorOffset, p.pageSize)
  {
    hide *;
    NextCount(rows, p.direction, i);
    FromPages(rows, p, rows[i]);
  }

  lemma NextNeeds(rows: seq<Row>, p: Params, i: nat)
    requires i < |rows| && Strict(Display(p.direction), rows) && !p.boundedRange && p.cursorOffset == 0
    ensures PageOf(rows, From(p, Next, rows[i])) == Slice(rows, i + 1, i + 1 + p.pageSize) ==>
              NextMeets(p.direction, rows, i)
  {
    hide *;
    var n := CountUpTo(Display(p.direction), rows, ShownKey(rows[i]));
    NextCount(rows, p.direction, i);
    FromPages(rows, p, rows[i]);
    SkipNone(rows, n, p.pageSize);
    SlicesDiffer(Display(p.direction), rows, n, i + 1, p.pageSize);
  }

  lemma FromPages(rows: seq<Row>, p: Params, r: Row)
    requires !p.boundedRange
    ensures var n := CountUpTo(Display(p.direction), rows, ShownKey(r));
      PageOf(rows, From(p, Next, r)) == Skip(rows, n, p.cursorOffset, p.pageSize)
    ensures var n := CountBefore(Display(p.direction), rows, ShownKey(r));
      PageOf(rows, From(p, Prev, r)) == Back(rows, n, p.cursorOffset, p.pageSize)
  {
    hide Milliseconds, CountUpTo, CountBefore, Slice, Skip, Back;
  }

  lemma SkipNone(rows: seq<Row>, start: nat, size: Positive)
    ensures Skip(rows, start, 0, size) == Slice(rows, start, start + size)
  {
  }

  lemma BackNone(rows: seq<Row>, end: nat, size: Positive)
    ensures Back(rows, end, 0, size) == Slice(rows, end - size, end)
  {
  }

  lemma NextCount(rows: seq<Row>, d: Direction, i: nat)
    requires i < |rows| && Strict(Display(d), rows)
    ensures var n := CountUpTo(Display(d), rows, ShownKey(rows[i]));
      n <= |rows| && (NextMeets(d, rows, i) <==> n == i + 1)
  {
    hide Before;
    StrictSorted(Display(d), rows);
    CountUpToIs(Display(d), rows, ShownKey(rows[i]));
  }

  lemma SlicesDiffer(o: Order, rows: seq<Row>, m: nat, n: nat, size: Positive)
    requires Strict(o, rows) && m <= |rows| && n <= |rows|
    ensures Slice(rows, m, m + size) == Slice(rows, n, n + size) ==> m == n
  {
    hide Before;
    var s, t := Slice(rows, m, m + size), Slice(rows, n, n + size);
    if m < |rows| { assert s[0] == rows[m]; }
    if n < |rows| { assert t[0] == rows[n]; }
    if m < |rows| && n < |rows| { BeforeTotal(o, KeyOf(rows[m]), KeyOf(rows[n])); }
  }

  /** A prev cursor gives the slice before its row exactly when the cut time still lies there. */
  lemma PrevExactly(rows: seq<Row>, p: Params, i: nat)
    requires i < |rows| && Strict(Display(p.direction), rows) && !p.boundedRange
    ensures PrevMeets(p.direction, rows, i) ==>
              PageOf(rows, From(p, Prev, rows[i])) == Back(rows, i, p.cursorOffset, p.pageSize)
    ensures p.cursorOffset == 0 && PageOf(rows, From(p, Prev, rows[i])) == Slice(rows, i - p.pageSize, i) ==>
              PrevMeets(p.direction, rows, i)
  {
    hide *;
    if PrevMeets(p.direction, rows, i) { PrevSlice(rows, p, i); }
    if p.cursorOffset == 0 { PrevNeeds(rows, p, i); }
  }

  lemma PrevSlice(rows: seq<Row>, p: Params, i: nat)
    requires i < |rows| && Strict(Display(p.direction), rows) && !p.boundedRange
    requires PrevMeets(p.direction, rows, i)
    ensures PageOf(rows, From(p, Prev, rows[i])) == Back(rows, i, p.cursorOffset, p.pageSize)
  {
    hide *;
    PrevCount(rows, p.direction, i);
    FromPages(rows, p, rows[i]);
  }

  lemma PrevNeeds(rows: seq<Row>, p: Params, i: nat)
    requires i < |rows| && Strict(Display(p.direction), rows) && !p.boundedRange && p.cursorOffset == 0
    ensures PageOf(rows, From(p, Prev, rows[i])) == Slice(rows, i - p.pageSize, i) ==> PrevMeets(p.direction, rows, i)
  {
    hide *;
    var n := CountBefore(Display(p.direction), rows, ShownKey(rows[i]));
    PrevCount(rows, p.direction, i);
    FromPages(rows, p, rows[i]);
    BackNone(rows, n, p.pageSize);
    EndsDiffer(Display(p.direction), rows, n, i, p.pageSize);
  }

  lemma PrevCount(rows: seq<Row>, d: Direction, i: nat)
    requires i < |rows| && Strict(Display(d), rows)
    ensures var n := CountBefore(Display(d), rows, ShownKey(rows[i]));
      n <= |rows| && (PrevMeets(d, rows, i) <==> n == i)
  {
    hide Before;
    StrictSorted(Display(d), rows);
    CountBeforeIs(Display(d), rows, ShownKey(rows[i]));
  }

  lemma EndsDiffer(o: Order, rows: seq<Row>, m: nat, n: nat, size: Positive)
    requires Strict(o, rows) && m <= |rows| && n <= |rows|
    ensures Slice(rows, m - size, m) == Slice(rows, n - size, n) ==> m == n
  {
    hide Before;
    var s, t := Slice(rows, m - size, m), Slice(rows, n - size, n);
    if m > 0 { assert s[|s| - 1] == rows[m - 1]; }
    if n > 0 { assert t[|t| - 1] == rows[n - 1]; }
    if m > 0 && n > 0 { BeforeTotal(o, KeyOf(rows[m - 1]), KeyOf(rows[n - 1])); }
  }

  /** Whole milliseconds keep every cursor in its place. */
  lemma ExactMeets(d: Direction, rows: seq<Row>, i: nat)
    requires i < |rows| && Strict(Display(d), rows) && Exact(rows[i])
    ensures NextMeets(d, rows, i) && PrevMeets(d, rows, i)
  {
    hide Before;
    assert ShownKey(rows[i]) == KeyOf(rows[i]);
    BeforeTotal(Display(d), KeyOf(rows[i]), KeyOf(rows[i]));
  }

  /** Cutting the time off moves the key of a row before or after the row in the order of display. */
  predicate CutBefore(d: Direction, r: Row) { if d.Oldest? then r.time >= 0 else r.time <= 0 }

  predicate CutAfter(d: Direction, r: Row) { if d.Oldest? then r.time <= 0 else r.time >= 0 }

  /** Where the key is moved before its row, whole milliseconds are also needed: otherwise the next
      page begins with the row again. */
  lemma NextNeedsExact(d: Direction, rows: seq<Row>, i: nat)
    requires i < |rows| && Strict(Display(d), rows) && CutBefore(d, rows[i])
    ensures NextMeets(d, rows, i) <==> Exact(rows[i])
  {
    if Exact(rows[i]) { ExactMeets(d, rows, i); }
  }

  /** Where it is moved after its row, they are needed only if the key passes the following row:
      that row is skipped. */
  lemma NextSkips(d: Direction, rows: seq<Row>, i: nat)
    requires i < |rows| && Strict(Display(d), rows) && CutAfter(d, rows[i])
    ensures var cut := Milliseconds(rows[i].time) * NS_PER_MS;
      NextMeets(d, rows, i)
      <==> i + 1 == |rows| || (if d.Oldest? then rows[i + 1].time > cut else rows[i + 1].time < cut)
           || (rows[i + 1].time == cut && Less(rows[i].name, rows[i + 1].name))
  {
    LessTotal(rows[i].name, rows[i].name);
  }

  /** The same for the page before: the row comes again where its key is moved after it, and the
      preceding row is skipped where the key is moved before it and past that row. */
  lemma PrevNeedsExact(d: Direction, rows: seq<Row>, i: nat)
    requires i < |rows| && Strict(Display(d), rows) && CutAfter(d, rows[i])
    ensures PrevMeets(d, rows, i) <==> Exact(rows[i])
  {
    if Exact(rows[i]) { ExactMeets(d, rows, i); }
  }

  lemma PrevSkips(d: Direction, rows: seq<Row>, i: nat)
    requires i < |rows| && Strict(Display(d), rows) && CutBefore(d, rows[i])
    ensures var cut := Milliseconds(rows[i].time) * NS_PER_MS;
      PrevMeets(d, rows, i)
      <==> i == 0 || (if d.Oldest? then rows[i - 1].time < cut else rows[i - 1].time > cut)
           || (rows[i - 1].time == cut && Less(rows[i - 1].name, rows[i].name))
  {
    LessTotal(rows[i].name, rows[i].name);
  }

  lemma ListingStrict(table: seq<Row>, p: Params)
    requires UniqueKeys(table)
    ensures Strict(Display(p.direction), Listing(table, p))
    ensures forall r <- Listing(table, p) :: r in table
    ensures forall r <- table :: HoldsAll(BaseClauses(p), r) ==> r in Listing(table, p)
  {
    hide Before, Holds;
    FilterUnique(BaseClauses(p), table);
    FilterMembers(BaseClauses(p), table);
    SortStrict(Display(p.direction), Filter(BaseClauses(p), table));
    SortSorts(Display(p.direction), Filter(BaseClauses(p), table));
  }

  /** Paging by cursor is paging by number: from any page the next cursor at its last row fetches
      the page that follows, and the prev cursor at its first row the page before it. */
  lemma CursorPages(table: seq<Row>, p: Params)
    requires UniqueKeys(table) && forall r <- table :: Exact(r)
    requires p.cursor.None? && p.cursorOffset == 0 && !p.boundedRange
    requires Fetched(table, p) != []
    ensures var here := Fetched(table, p);
      Fetched(table, From(p, Next, here[|here| - 1])) == Fetched(table, p.(page := p.page + 1))
      && Fetched(table, From(p, Prev, here[0])) == if p.page > 1 then Fetched(table, p.(page := p.page - 1)) else []
  {
    hide *;
    var rows, here := Listing(table, p), Fetched(table, p);
    var size: int := p.pageSize;
    Numbered(table, p, p.page);
    var start, end := (p.page - 1) * size, p.page * size;
    assert p.(page := p.page) == p;
    assert end == start + size && start >= 0;
    SliceEnds(rows, start, end);
    var j := Clip(end, |rows|) - 1;
    PageNeighbours(table, p, start, j);
    Numbered(table, p, p.page + 1);
    assert (p.page + 1) * size == end + size;
    SliceClip(rows, end, size);
    if p.page > 1 {
      Numbered(table, p, p.page - 1);
      assert (p.page - 2) * size == start - size;
    } else {
      SliceNone(rows, size);
    }
  }

  lemma Numbered(table: seq<Row>, p: Params, page: Positive)
    requires p.cursor.None? && !p.boundedRange
    ensures Fetched(table, p.(page := page)) == Slice(Listing(table, p), (page - 1) * p.pageSize, page * p.pageSize)
  {
    hide Fetched, Filter, SortBy, Slice;
    FetchedIsPage(table, p.(page := page));
  }

  lemma SliceEnds(rows: seq<Row>, from: nat, to: nat)
    requires Slice(rows, from, to) != []
    ensures from < |rows| && 0 < Clip(to, |rows|) <= |rows|
    ensures var s := Slice(rows, from, to); s[0] == rows[from] && s[|s| - 1] == rows[Clip(to, |rows|) - 1]
  {
  }

  lemma SliceClip(rows: seq<Row>, from: nat, size: nat)
    ensures Slice(rows, Clip(from, |rows|), Clip(from, |rows|) + size) == Slice(rows, from, from + size)
  {
  }

  lemma SliceNone(rows: seq<Row>, size: int)
    requires size >= 0
    ensures Slice(rows, 0 - size, 0) == []
  {
  }

  lemma PageNeighbours(table: seq<Row>, p: Params, i: nat, j: nat)
    requires UniqueKeys(table) && forall r <- table :: Exact(r)
    requires p.cursor.None? && p.cursorOffset == 0 && !p.boundedRange
    requires i < |Listing(table, p)| && j < |Listing(table, p)|
    ensures var rows := Listing(table, p);
      Fetched(table, From(p, Next, rows[j])) == Slice(rows, j + 1, j + 1 + p.pageSize)
      && Fetched(table, From(p, Prev, rows[i])) == Slice(rows, i - p.pageSize, i)
  {
    hide Before, Holds, Filter, SortBy, Fetched, CountUpTo, CountBefore, UniqueKeys, Strict, Exact, NextMeets,
        PrevMeets, PageOf, Slice, Skip, Back;
    var rows := Listing(table, p);
    ListingStrict(table, p);
    assert rows[i] in rows && rows[j] in rows;
    ExactMeets(p.direction, rows, i);
    ExactMeets(p.direction, rows, j);
    NextExactly(rows, p, j);
    PrevExactly(rows, p, i);
    SkipNone(rows, j + 1, p.pageSize);
    BackNone(rows, i, p.pageSize);
    FetchedIsPage(table, From(p, Next, rows[j]));
    FetchedIsPage(table, From(p, Prev, rows[i]));
  }

  // ---------------------------------------------------------------- rows that come again or are missed

  const PAGE_OF_ONE := Request(Some(1), None, Oldest, false, None, None, None, None, None, None)

  /** The request of a client that has seen a row and asks for what follows. */
  function Following(q: Request, r: ViewerRow): Request {
    q.(cursorSide := Some(Next), cursorTime := Some(r.timeMs), cursorName := Some(r.name))
  }

  /** One row, a nanosecond after a whole millisecond, oldest first: the page after it is that row. */
  lemma RowComesAgain(row: Row)
    requires row == Row(1, "tag", "1")
    ensures var p := PageParams(["tag"], PAGE_OF_ONE).value; Fetched([row], p) == [row]
    ensures PageParams(["tag"], Following(PAGE_OF_ONE, Show(row))).Some?
    ensures var p := PageParams(["tag"], Following(PAGE_OF_ONE, Show(row))).value; Fetched([row], p) == [row]
  {
    var base, past := [NameIn(["tag"])], Past(true, true, 0, "tag");
    Alone(base, row);
    Alone(base + [past], row);
    assert BaseClauses(PageParams(["tag"], PAGE_OF_ONE).value) == base;
    assert BaseClauses(PageParams(["tag"], Following(PAGE_OF_ONE, Show(row))).value) == base;
  }

  lemma Alone(cs: seq<Clause>, row: Row)
    requires HoldsAll(cs, row)
    ensures Filter(cs, [row]) == [row] && forall o :: SortBy(o, [row]) == [row]
  {
    assert [row][1..] == [];
  }

  lemma Descending(newer: Row, older: Row)
    requires newer.time > older.time
    ensures SortBy(Order(false, true), [newer, older]) == [newer, older]
  {
    var o := Order(false, true);
    assert [newer, older][1..] == [older] && [older][1..] == [];
    assert SortBy(o, []) == [];
    assert SortBy(o, [older]) == Insert(o, older, []) == [older];
    assert Insert(o, newer, [older]) == [newer] + [older];
  }

  /** Two rows within one millisecond, latest first: after the page with the one, the other is
      missed. */
  lemma RowIsMissed(newer: Row, older: Row)
    requires newer == Row(2, "tag", "2") && older == Row(1, "tag", "1")
    ensures var q := PAGE_OF_ONE.(direction := Latest); var p := PageParams(["tag"], q).value;
      Fetched([newer, older], p) == [newer] && Fetched([newer, older], p.(page := 2)) == [older]
    ensures var q := Following(PAGE_OF_ONE.(direction := Latest), Show(newer));
      PageParams(["tag"], q).Some? && Fetched([newer, older], PageParams(["tag"], q).value) == []
  {
    var table, base, past := [newer, older], [NameIn(["tag"])], Past(false, true, 0, "tag");
    assert table[1..] == [older] && [older][1..] == [];
    assert Filter(base, [older]) == [older] && Filter(base, table) == table;
    Descending(newer, older);
    var p := PageParams(["tag"], PAGE_OF_ONE.(direction := Latest)).value;
    assert BaseClauses(p) == base && BaseClauses(p.(page := 2)) == base;
    var next := PageParams(["tag"], Following(PAGE_OF_ONE.(direction := Latest), Show(newer))).value;
    assert BaseClauses(next) == base;
    assert past in base + [past] && !Holds(past, newer) && !Holds(past, older);
    assert Filter(base + [past], [older]) == [] && Filter(base + [past], table) == [];
  }
}
