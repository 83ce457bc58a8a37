/** One collection cycle (cgi-bin/src/collector/cycle.js): which calls are made, which rows are
    appended, and what the report of the cycle says.

    What the D-Bus call, the decoder and the transforms make of a call is an outcome given per
    call; so is whether an append succeeds, and the clock. An append stores all its rows or none. */
module Cycle {
  import opened Options

  datatype Row = Row(name: string, requestTime: int, value: string, stringValue: Option<string>)

  datatype Outcome = Rows(rows: seq<Row>) | Fault(message: string)

  datatype Call = Call(id: string, name: string, interfaceId: string, methodId: string)

  datatype Policy = PerMethod | AfterAllMethods

  /** The columns that a Job names for numbers and for strings; the second may be left blank. */
  datatype Database = Database(valueColumn: string, stringValueColumn: string)

  datatype Job = Job(calls: seq<Call>, policy: Policy, database: Database)

  /** White space as `trim` cuts it off. */
  predicate Space(c: char) {
    var n := c as int;
    9 <= n <= 13 || n == 32 || n == 160 || n == 5760 || 8192 <= n <= 8202 || n == 8232 || n == 8233
    || n == 8239 || n == 8287 || n == 12288 || n == 65279
  }

  predicate TakesStrings(job: Job) {
    var name := job.database.stringValueColumn;
    exists i :: 0 <= i < |name| && !Space(name[i])
  }

  datatype Status = Success | Partial | Failed

  datatype MethodResult = MethodResult(call: Call, requestedAt: int, completedAt: int, status: Status,
                                       storedCount: nat, error: Option<string>)

  datatype LastRun = LastRun(startedAt: int, completedAt: int, status: Status, methodCalls: seq<MethodResult>,
                             lastRunAt: int, lastSuccessfulRunAt: Option<int>, lastStoredAt: Option<int>,
                             lastError: Option<string>)

  datatype Append = Append(rows: seq<Row>, ok: bool)

  const BUFFER_FULL := "the buffer of afterAllMethods is full"
  const APPEND_FAILED := "the append to the TAG table failed"

  /** shortError: at most 500 characters. */
  function ShortError(message: string): (r: string)
    ensures |message| <= 500 ==> r == message
    ensures |message| > 500 ==> |r| == 500 && r[..497] == message[..497] && r[497..] == "..."
  {
    if |message| > 500 then message[..497] + "..." else message
  }

  /** The rows that a table without a string column can take. */
  function Writable(stringColumn: bool, rows: seq<Row>): (r: seq<Row>)
    ensures |r| <= |rows|
    ensures |r| == |rows| <==> stringColumn || forall x <- rows :: x.stringValue.None?
    ensures |r| == |rows| ==> r == rows
    ensures stringColumn || forall x <- r :: x.stringValue.None?
  {
    if stringColumn || rows == [] then rows
    else if rows[0].stringValue.None? then [rows[0]] + Writable(stringColumn, rows[1..])
    else Writable(stringColumn, rows[1..])
  }

  /** Each row is kept or dropped by itself, and the order stays. */
  lemma WritableOne(stringColumn: bool, x: Row)
    ensures Writable(stringColumn, [x]) == if stringColumn || x.stringValue.None? then [x] else []
  {
    assert [x][1..] == [];
  }

  lemma {:induction false} WritableJoins(stringColumn: bool, a: seq<Row>, b: seq<Row>)
    ensures Writable(stringColumn, a + b) == Writable(stringColumn, a) + Writable(stringColumn, b)
  {
    if stringColumn {
    } else if a == [] {
      assert a + b == b && Writable(false, a) == [];
    } else {
      WritableJoins(false, a[1..], b);
      assert (a + b)[1..] == a[1..] + b && (a + b)[0] == a[0];
      Associative([a[0]], Writable(false, a[1..]), Writable(false, b));
    }
  }

  lemma Associative(a: seq<Row>, b: seq<Row>, c: seq<Row>)
    ensures a + (b + c) == a + b + c
  {
  }

  /** What a cycle is given. Call i is call number i of the Job; appendOk(i, rows) tells of an
      append made in call i, or at the end if i is the number of calls. */
  datatype Setting = Setting(job: Job, limit: nat, outcomes: nat -> Outcome, appendOk: (nat, seq<Row>) -> bool,
                             clock: nat -> int, previous: Option<LastRun>)

  // ---------------------------------------------------------------- what happens in a cycle

  function RowsAt(x: Setting, i: nat): seq<Row> {
    match x.outcomes(i)
    case Rows(rows) => Writable(TakesStrings(x.job), rows)
    case Fault(_) => []
  }

  /** The rows of the calls before number i, in call order. */
  function RowsBefore(x: Setting, i: nat): seq<Row> {
    if i == 0 then [] else RowsBefore(x, i - 1) + RowsAt(x, i - 1)
  }

  predicate Overflows(x: Setting, i: nat) {
    x.job.policy == AfterAllMethods && |RowsBefore(x, i)| + |RowsAt(x, i)| > x.limit
  }

  predicate Refused(x: Setting, i: nat) {
    x.job.policy == PerMethod && RowsAt(x, i) != [] && !x.appendOk(i, RowsAt(x, i))
  }

  /** Call i fails, if it is made. */
  predicate Fails(x: Setting, i: nat) { x.outcomes(i).Fault? || Overflows(x, i) || Refused(x, i) }

  function ErrorAt(x: Setting, i: nat): string {
    match x.outcomes(i)
    case Fault(message) => message
    case Rows(_) => if Overflows(x, i) then BUFFER_FULL else APPEND_FAILED
  }

  /** The first call that fails, or the number of calls. */
  function FirstFailure(x: Setting, i: nat): (r: nat)
    requires i <= |x.job.calls|
    ensures i <= r <= |x.job.calls|
    ensures forall k :: i <= k < r ==> !Fails(x, k)
    ensures r < |x.job.calls| ==> Fails(x, r)
    decreases |x.job.calls| - i
  {
    if i == |x.job.calls| || Fails(x, i) then i else FirstFailure(x, i + 1)
  }

  /** No call fails, but the rows of all calls cannot be appended at the end. */
  predicate EndRefused(x: Setting) {
    x.job.policy == AfterAllMethods && FirstFailure(x, 0) == |x.job.calls|
    && RowsBefore(x, |x.job.calls|) != [] && !x.appendOk(|x.job.calls|, RowsBefore(x, |x.job.calls|))
  }

  predicate AllWell(x: Setting) { FirstFailure(x, 0) == |x.job.calls| && !EndRefused(x) }

  /** The rows that are stored. */
  function StoredRows(x: Setting): seq<Row> {
    if x.job.policy == PerMethod then RowsBefore(x, FirstFailure(x, 0))
    else if AllWell(x) then RowsBefore(x, |x.job.calls|) else []
  }

  // ---------------------------------------------------------------- what is appended and reported

  /** The appends of the calls before number n that were made and succeeded. */
  function AppendsBefore(x: Setting, n: nat): seq<Append> {
    if n == 0 || x.job.policy == AfterAllMethods then []
    else if RowsAt(x, n - 1) == [] then AppendsBefore(x, n - 1)
    else AppendsBefore(x, n - 1) + [Append(RowsAt(x, n - 1), true)]
  }

  function Appends(x: Setting): seq<Append> {
    var n := |x.job.calls|;
    var first := FirstFailure(x, 0);
    if x.job.policy == PerMethod then
      if first < n && Refused(x, first) then AppendsBefore(x, first) + [Append(RowsAt(x, first), false)]
      else AppendsBefore(x, first)
    else if first == n && RowsBefore(x, n) != [] then [Append(RowsBefore(x, n), x.appendOk(n, RowsBefore(x, n)))]
    else []
  }

  function MethodReport(x: Setting, i: nat): MethodResult
    requires i < |x.job.calls|
  {
    var failed := Fails(x, i) || EndRefused(x);
    var stored := !failed && (x.job.policy == PerMethod || AllWell(x));
    MethodResult(x.job.calls[i], x.clock(1 + 2 * i), x.clock(2 + 2 * i), if failed then Failed else Success,
                 if stored then |RowsAt(x, i)| else 0,
                 if Fails(x, i) then Some(ShortError(ErrorAt(x, i)))
                 else if EndRefused(x) then Some(ShortError(APPEND_FAILED)) else None)
  }

  /** The reports of the calls before number n. */
  function MethodReports(x: Setting, n: nat): (r: seq<MethodResult>)
    requires n <= |x.job.calls|
    ensures |r| == n && forall i :: 0 <= i < n ==> r[i] == MethodReport(x, i)
  {
    if n == 0 then [] else MethodReports(x, n - 1) + [MethodReport(x, n - 1)]
  }

  /** How many calls are made. */
  function CallsMade(x: Setting): nat {
    if FirstFailure(x, 0) < |x.job.calls| then FirstFailure(x, 0) + 1 else |x.job.calls|
  }

  function Report(x: Setting): LastRun {
    var made := CallsMade(x);
    var completedAt := x.clock(1 + 2 * made);
    var storing := StoredRows(x) != [];
    LastRun(x.clock(0), completedAt,
            if AllWell(x) then Success else if storing then Partial else Failed,
            MethodReports(x, made),
            completedAt,
            if AllWell(x) then Some(completedAt) else PreviousSuccess(x.previous),
            if storing then Some(completedAt) else PreviousStored(x.previous),
            if AllWell(x) then None
            else Some(ShortError(if EndRefused(x) then APPEND_FAILED else ErrorAt(x, FirstFailure(x, 0)))))
  }

  function PreviousSuccess(previous: Option<LastRun>): Option<int> {
    if previous.Some? then previous.value.lastSuccessfulRunAt else None
  }

  function PreviousStored(previous: Option<LastRun>): Option<int> {
    if previous.Some? then previous.value.lastStoredAt else None
  }

  // ---------------------------------------------------------------- properties

  function RowTotal(appends: seq<Append>): nat {
    if appends == [] then 0 else (if appends[0].ok then |appends[0].rows| else 0) + RowTotal(appends[1..])
  }

  function StoredTotal(results: seq<MethodResult>): nat {
    if results == [] then 0 else results[0].storedCount + StoredTotal(results[1..])
  }

  /** The rows of the appends that returned, one after the other. */
  function Landed(appends: seq<Append>): seq<Row> {
    if appends == [] then [] else (if appends[0].ok then appends[0].rows else []) + Landed(appends[1..])
  }

  lemma {:induction false} LandedMore(appends: seq<Append>, last: Append)
    ensures Landed(appends + [last]) == Landed(appends) + (if last.ok then last.rows else [])
  {
    if appends == [] {
      assert appends + [last] == [last];
      assert [last][1..] == [];
    } else {
      LandedMore(appends[1..], last);
      assert (appends + [last])[1..] == appends[1..] + [last] && (appends + [last])[0] == appends[0];
      var first, end := if appends[0].ok then appends[0].rows else [], if last.ok then last.rows else [];
      Associative(first, Landed(appends[1..]), end);
    }
  }

  lemma {:induction false} LandedTotal(appends: seq<Append>)
    ensures |Landed(appends)| == RowTotal(appends)
  {
    if appends == [] {
    } else {
      LandedTotal(appends[1..]);
    }
  }

  lemma {:induction false} StoredMore(results: seq<MethodResult>, last: MethodResult)
    ensures StoredTotal(results + [last]) == StoredTotal(results) + last.storedCount
  {
    if results == [] {
      assert results + [last] == [last];
      assert [last][1..] == [];
    } else {
      StoredMore(results[1..], last);
      assert (results + [last])[1..] == results[1..] + [last];
    }
  }

  lemma {:induction false} LandedBefore(x: Setting, n: nat)
    requires x.job.policy == PerMethod
    ensures Landed(AppendsBefore(x, n)) == RowsBefore(x, n)
    ensures forall a <- AppendsBefore(x, n) :: a.ok
  {
    hide RowsAt;
    if n == 0 {
    } else {
      LandedBefore(x, n - 1);
      if RowsAt(x, n - 1) != [] { LandedMore(AppendsBefore(x, n - 1), Append(RowsAt(x, n - 1), true)); }
    }
  }

  /** What the appends that returned stored, in order: one by one the calls before the first
      failure, or every call at once or nothing. */
  lemma AppendsLand(x: Setting)
    ensures Landed(Appends(x)) == StoredRows(x)
    ensures forall k :: 0 <= k < |Appends(x)| && !Appends(x)[k].ok ==> k == |Appends(x)| - 1
    ensures forall a <- Appends(x) :: a.rows != []
    ensures x.job.policy == AfterAllMethods ==> |Appends(x)| <= 1 && |StoredRows(x)| <= x.limit
  {
    hide RowsAt;
    var first, n := FirstFailure(x, 0), |x.job.calls|;
    if x.job.policy == PerMethod {
      LandedBefore(x, first);
      NoEmptyAppend(x, first);
      if first < n && Refused(x, first) { LandedMore(AppendsBefore(x, first), Append(RowsAt(x, first), false)); }
    } else if first == n {
      if n > 0 { assert !Fails(x, n - 1); }
      assert Landed([]) == [];
      if RowsBefore(x, n) != [] { LandedMore([], Append(RowsBefore(x, n), x.appendOk(n, RowsBefore(x, n)))); }
    }
  }

  lemma {:induction false} NoEmptyAppend(x: Setting, n: nat)
    ensures forall a <- AppendsBefore(x, n) :: a.rows != []
  {
    if n == 0 {
    } else {
      NoEmptyAppend(x, n - 1);
    }
  }

  /** The counts of the report add up to the rows that were stored. */
  lemma Conservation(x: Setting)
    ensures StoredTotal(Report(x).methodCalls) == |StoredRows(x)| == RowTotal(Appends(x))
  {
    AppendsLand(x);
    LandedTotal(Appends(x));
    StoredUpTo(x, CallsMade(x));
  }

  lemma {:induction false} StoredUpTo(x: Setting, n: nat)
    requires n <= CallsMade(x)
    ensures StoredTotal(MethodReports(x, n))
            == if x.job.policy == PerMethod
               then |RowsBefore(x, if n <= FirstFailure(x, 0) then n else FirstFailure(x, 0))|
               else if AllWell(x) then |RowsBefore(x, n)| else 0
  {
    hide RowsAt, FirstFailure, MethodReport, EndRefused, Fails;
    if n == 0 {
    } else {
      StoredUpTo(x, n - 1);
      StoredMore(MethodReports(x, n - 1), MethodReport(x, n - 1));
      StoredAt(x, n - 1);
    }
  }

  lemma StoredAt(x: Setting, i: nat)
    requires i < CallsMade(x)
    ensures MethodReport(x, i).storedCount
            == if (x.job.policy == PerMethod && i < FirstFailure(x, 0)) || AllWell(x) then |RowsAt(x, i)| else 0
  {
    hide RowsAt, RowsBefore, FirstFailure;
  }

  /** Success means that every call was made and went well, partial that the cycle failed after
      storing something, which a single append at the end cannot. */
  lemma StatusMeans(x: Setting)
    ensures var r := Report(x);
      (r.status == Success <==> |r.methodCalls| == |x.job.calls| && forall m <- r.methodCalls :: m.status == Success)
      && (r.status == Success <==> r.lastError.None?)
      && (r.status == Success ==> StoredRows(x) == RowsBefore(x, |x.job.calls|))
      && (r.status == Partial <==> r.lastError.Some? && StoredTotal(r.methodCalls) > 0)
      && (r.status == Partial ==> x.job.policy == PerMethod)
  {
    Conservation(x);
    var r, first, n := Report(x), FirstFailure(x, 0), |x.job.calls|;
    if first < n {
      assert r.methodCalls[first] == MethodReport(x, first);
      assert r.methodCalls[first] in r.methodCalls;
    } else if EndRefused(x) {
      RowsMeanCalls(x);
      assert r.methodCalls[0] == MethodReport(x, 0);
      assert r.methodCalls[0] in r.methodCalls;
    }
  }

  lemma RowsMeanCalls(x: Setting)
    requires RowsBefore(x, |x.job.calls|) != []
    ensures |x.job.calls| > 0
  {
  }
}
