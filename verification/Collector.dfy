/** A collector (cgi-bin/src/collector/entry.js): cycles on a timer, an append stream that is
    opened again after a failure, a report carried from cycle to cycle, and shutdown.

    Everything that happens is kept in a trace. A callback runs to its end before the next one. */
module Collector {
  import opened Options
  import opened Cycle
  import opened Appender
  import Scheduler

  datatype Config = Config(job: Job, limit: nat, schedule: Scheduler.Settings)

  /** What the surroundings do in one run of the timer's callback: the reply to an open, what
      becomes of each call, whether the stream accepts rows, the clock. */
  datatype Tick = Tick(reply: Reply, outcomes: nat -> Outcome, accepted: nat -> bool, clock: nat -> int)

  datatype Event =
    | Opened(ok: bool)
    | Began
    | Appended(rows: seq<Row>, ok: bool)
    | Closed
    | Reported(report: LastRun)
    | Halted

  datatype State = State(stream: Option<Mapping>, ready: bool, stopped: bool, previous: Option<LastRun>,
                         written: seq<Row>, timer: Scheduler.State, trace: seq<Event>)

  const INITIAL := State(None, false, false, None, [], Scheduler.INITIAL, [])

  // ---------------------------------------------------------------- one callback

  /** setupFailure. */
  function SetupFailure(previous: Option<LastRun>, completedAt: int): LastRun {
    LastRun(completedAt, completedAt, Failed, [], completedAt, PreviousSuccess(previous), PreviousStored(previous),
            Some(OPEN_FAILED))
  }

  const OPEN_FAILED := "the append stream cannot be opened"

  function SettingOf(c: Config, m: Mapping, previous: Option<LastRun>, t: Tick): Setting {
    Setting(c.job, c.limit, t.outcomes,
            (i: nat, rows: seq<Row>) => t.accepted(i) || Writable(m.stringValue.Some?, rows) == [],
            t.clock, previous)
  }

  /** The events of the appends; a failed one closes the stream. */
  function EventsOf(appends: seq<Append>): seq<Event> {
    if appends == [] then []
    else
      var last := appends[|appends| - 1];
      EventsOf(appends[..|appends| - 1]) + [Appended(last.rows, last.ok)] + (if last.ok then [] else [Closed])
  }

  lemma EventsMore(appends: seq<Append>, last: Append)
    ensures EventsOf(appends + [last])
            == if last.ok then EventsOf(appends) + [Appended(last.rows, true)]
               else EventsOf(appends) + [Appended(last.rows, false)] + [Closed]
  {
    assert (appends + [last])[..|appends|] == appends;
  }

  /** The rows that the appends leave in a table with or without a string column. */
  function WrittenBy(stringColumn: bool, appends: seq<Append>): seq<Row> {
    if appends == [] then []
    else
      var last := appends[|appends| - 1];
      WrittenBy(stringColumn, appends[..|appends| - 1]) + (if last.ok then Writable(stringColumn, last.rows) else [])
  }

  predicate AllAppended(appends: seq<Append>) { forall a <- appends :: a.ok }

  /** A cycle on an open stream. */
  function Cycled(c: Config, s: State, t: Tick): State
    requires s.stream.Some?
  {
    var x := SettingOf(c, s.stream.value, s.previous, t);
    var well := AllAppended(Appends(x));
    s.(stream := if well then s.stream else None,
       ready := well,
       previous := Some(Report(x)),
       written := s.written + WrittenBy(s.stream.value.stringValue.Some?, Appends(x)),
       trace := s.trace + [Began] + EventsOf(Appends(x)))
  }

  /** The run of the scheduler's options: open the stream if it is not ready, then a cycle. */
  function Ran(c: Config, s: State, t: Tick): State
    requires s.ready ==> s.stream.Some?
  {
    if s.ready then Cycled(c, s, t)
    else
      var found := Opens(c.job.database, t.reply);
      if found.Some? then Cycled(c, s.(stream := found, ready := true, trace := s.trace + [Opened(true)]), t)
      else s.(stream := None, previous := Some(SetupFailure(s.previous, t.clock(0))),
          trace := s.trace + [Opened(false), Closed])
  }

  datatype Input = Begin(tick: Tick) | Fire(id: nat, tick: Tick) | Halt

  /** A collector begins once, before it halts; a timer fires while it is pending. */
  predicate Possible(s: State, i: Input) {
    match i
    case Begin(_) => !s.stopped
    case Fire(id, _) => id in s.timer.pending
    case Halt => true
  }

  function Reporting(s: State): State
    requires s.previous.Some?
  {
    s.(trace := s.trace + [Reported(s.previous.value)])
  }

  /** A shutdown closes the stream without telling the callback, which never runs again. */
  predicate Usable(s: State) {
    (s.ready && !s.stopped ==> s.stream.Some?) && (s.stopped ==> s.timer.stopped)
  }

  function Step(c: Config, s: State, i: Input): State
    requires Usable(s) && Possible(s, i)
  {
    match i
    case Begin(t) =>
      if !s.timer.stopped then s
      else
        var after := Reporting(Ran(c, s, t));
        after.(timer := Scheduler.Step(s.timer, Scheduler.Started(after.previous.value.status == Success), c.schedule))
    case Fire(id, t) =>
      if s.timer.stopped then s.(timer := s.timer.(pending := s.timer.pending - {id}))
      else
        var after := Reporting(Ran(c, s, t));
        var fired := Scheduler.Fired(id, after.previous.value.status == Success);
        after.(timer := Scheduler.Step(s.timer, fired, c.schedule))
    case Halt =>
      if s.stopped then s
      else s.(stopped := true, timer := Scheduler.Step(s.timer, Scheduler.Stopped, c.schedule), stream := None,
              trace := s.trace + [Closed, Halted])
  }

  // ---------------------------------------------------------------- what a trace may hold

  predicate IsOpen(trace: seq<Event>) {
    trace != [] &&
    match trace[|trace| - 1]
    case Opened(ok) => ok
    case Closed => false
    case _ => IsOpen(trace[..|trace| - 1])
  }

  predicate HasHalted(trace: seq<Event>) {
    trace != [] && (trace[|trace| - 1].Halted? || HasHalted(trace[..|trace| - 1]))
  }

  /** An append failed in the cycle that began last. */
  predicate HasFailed(trace: seq<Event>) {
    trace != [] &&
    match trace[|trace| - 1]
    case Began => false
    case Appended(_, ok) => !ok || HasFailed(trace[..|trace| - 1])
    case _ => HasFailed(trace[..|trace| - 1])
  }

  /** Rows are appended only to an open stream, never again in a cycle after an append failed, and
      never after the shutdown; nothing begins or is opened after it either. */
  predicate Legal(trace: seq<Event>) {
    trace == [] ||
    (var n := |trace| - 1;
     Legal(trace[..n])
     && (trace[n].Appended? ==> IsOpen(trace[..n]) && !HasFailed(trace[..n]) && !HasHalted(trace[..n]))
     && (trace[n].Began? || trace[n].Opened? || trace[n].Reported? ==> !HasHalted(trace[..n])))
  }

  /** When the last successful cycle was completed, and the last one that stored rows. */
  function LatestSuccess(trace: seq<Event>): Option<int> {
    if trace == [] then None
    else
      var n := |trace| - 1;
      if trace[n].Reported? && trace[n].report.status == Success then Some(trace[n].report.completedAt)
      else LatestSuccess(trace[..n])
  }

  function LatestStored(trace: seq<Event>): Option<int> {
    if trace == [] then None
    else
      var n := |trace| - 1;
      if trace[n].Reported? && StoredTotal(trace[n].report.methodCalls) > 0 then Some(trace[n].report.completedAt)
      else LatestStored(trace[..n])
  }

  /** Between callbacks. */
  predicate Sound(s: State) {
    Usable(s)
    && Scheduler.Settled(s.timer)
    && (s.stopped <==> HasHalted(s.trace))
    && (s.stream.Some? <==> IsOpen(s.trace))
    && Legal(s.trace)
    && PreviousSuccess(s.previous) == LatestSuccess(s.trace)
    && PreviousStored(s.previous) == LatestStored(s.trace)
  }

  // ---------------------------------------------------------------- every run

  /** One more event. */
  lemma Extend(trace: seq<Event>, e: Event)
    ensures var more := trace + [e];
      IsOpen(more) == (match e case Opened(ok) => ok case Closed => false case _ => IsOpen(trace))
      && HasHalted(more) == (e.Halted? || HasHalted(trace))
      && HasFailed(more) == (match e
                             case Began => false
                             case Appended(_, ok) => !ok || HasFailed(trace)
                             case _ => HasFailed(trace))
      && Legal(more) == (Legal(trace) && (e.Appended? ==> IsOpen(trace) && !HasFailed(trace) && !HasHalted(trace))
                         && (e.Began? || e.Opened? || e.Reported? ==> !HasHalted(trace)))
    ensures !e.Reported? ==>
              LatestSuccess(trace + [e]) == LatestSuccess(trace) && LatestStored(trace + [e]) == LatestStored(trace)
    ensures e.Reported? ==>
              LatestSuccess(trace + [e]) == (if e.report.status == Success then Some(e.report.completedAt)
                  else LatestSuccess(trace))
              && LatestStored(trace + [e]) == if StoredTotal(e.report.methodCalls) > 0
                  then Some(e.report.completedAt) else LatestStored(trace)
  {
    var more := trace + [e];
    assert more[..|more| - 1] == trace;
  }

  /** What the events of appends leave behind. */
  predicate Appending(trace: seq<Event>, more: seq<Event>, well: bool) {
    Legal(more) && !HasHalted(more) && IsOpen(more) == well && HasFailed(more) == !well
    && LatestSuccess(more) == LatestSuccess(trace) && LatestStored(more) == LatestStored(trace)
  }

  /** The appends of a cycle are legal on an open stream, and leave it open if all went well. */
  lemma {:induction false} AppendsLegal(trace: seq<Event>, appends: seq<Append>)
    requires Legal(trace) && IsOpen(trace) && !HasFailed(trace) && !HasHalted(trace)
    requires forall k :: 0 <= k < |appends| && !appends[k].ok ==> k == |appends| - 1
    ensures Appending(trace, trace + EventsOf(appends), AllAppended(appends))
  {
    if appends == [] {
      assert trace + EventsOf(appends) == trace;
    } else {
      var front, last := appends[..|appends| - 1], appends[|appends| - 1];
      AppendsLegal(trace, front);
      OneAppend(trace, trace + EventsOf(front), last);
      hide *;
      assert appends == front + [last];
      EventsMore(front, last);
      Joined(trace, EventsOf(front), Appended(last.rows, last.ok), Closed);
      LastDecides(front, last);
    }
  }

  lemma LastDecides(front: seq<Append>, last: Append)
    requires forall a <- front :: a.ok
    ensures AllAppended(front + [last]) <==> last.ok
  {
    assert last in front + [last];
  }

  lemma Joined(a: seq<Event>, b: seq<Event>, e: Event, f: Event)
    ensures a + (b + [e]) == a + b + [e] && a + (b + [e] + [f]) == a + b + [e] + [f]
  {
  }

  lemma OneAppend(trace: seq<Event>, before: seq<Event>, last: Append)
    requires Appending(trace, before, true)
    ensures var appended := before + [Appended(last.rows, last.ok)];
      Appending(trace, if last.ok then appended else appended + [Closed], last.ok)
  {
    hide Legal, IsOpen, HasHalted, HasFailed, LatestSuccess, LatestStored;
    Extend(before, Appended(last.rows, last.ok));
    Extend(before + [Appended(last.rows, last.ok)], Closed);
  }

  /** What holds when a report has been made, before it is given on. */
  predicate Finished(s: State, was: State) {
    s.previous.Some? && s.stopped == was.stopped && s.timer == was.timer
    && (s.ready ==> s.stream.Some?) && (s.stream.Some? <==> IsOpen(s.trace))
    && Legal(s.trace) && !HasHalted(s.trace)
    && (var r := s.previous.value;
        r.lastSuccessfulRunAt == (if r.status == Success then Some(r.completedAt) else LatestSuccess(s.trace))
        && r.lastStoredAt == if StoredTotal(r.methodCalls) > 0 then Some(r.completedAt) else LatestStored(s.trace))
  }

  lemma CycleFinishes(c: Config, s: State, t: Tick)
    requires s.stream.Some? && IsOpen(s.trace) && Legal(s.trace) && !HasHalted(s.trace)
    requires PreviousSuccess(s.previous) == LatestSuccess(s.trace)
              && PreviousStored(s.previous) == LatestStored(s.trace)
    ensures Finished(Cycled(c, s, t), s)
    ensures var x := SettingOf(c, s.stream.value, s.previous, t);
      IsOpen(Cycled(c, s, t).trace) == AllAppended(Appends(x)) && Cycled(c, s, t).ready == AllAppended(Appends(x))
  {
    hide Legal, IsOpen, HasHalted, HasFailed, LatestSuccess, LatestStored, EventsOf, Appends;
    var x := SettingOf(c, s.stream.value, s.previous, t);
    Extend(s.trace, Began);
    AppendsLand(x);
    AppendsLegal(s.trace + [Began], Appends(x));
    ReportTimes(x);
  }

  lemma ReportTimes(x: Setting)
    ensures var r := Report(x);
      r.lastSuccessfulRunAt == (if r.status == Success then Some(r.completedAt) else PreviousSuccess(x.previous))
      && r.lastStoredAt == if StoredTotal(r.methodCalls) > 0 then Some(r.completedAt) else PreviousStored(x.previous)
  {
    Conservation(x);
  }

  lemma RunFinishes(c: Config, s: State, t: Tick)
    requires Sound(s) && !s.stopped
    ensures Finished(Ran(c, s, t), s)
  {
    hide Legal, IsOpen, HasHalted, HasFailed, LatestSuccess, LatestStored, Cycled, Opens, Scheduler.Settled;
    if s.ready {
      CycleFinishes(c, s, t);
    } else {
      var found := Opens(c.job.database, t.reply);
      if found.Some? {
        Extend(s.trace, Opened(true));
        CycleFinishes(c, s.(stream := found, ready := true, trace := s.trace + [Opened(true)]), t);
      } else {
        Extend(s.trace, Opened(false));
        Extend(s.trace + [Opened(false)], Closed);
        assert s.trace + [Opened(false), Closed] == s.trace + [Opened(false)] + [Closed];
        assert StoredTotal([]) == 0;
      }
    }
  }

  lemma StepSound(c: Config, s: State, i: Input)
    requires Sound(s) && Possible(s, i)
    ensures Sound(Step(c, s, i))
  {
    hide Legal, IsOpen, HasHalted, HasFailed, LatestSuccess, LatestStored, Ran, Scheduler.Settled, Scheduler.Step;
    match i {
      case Begin(t) =>
        if s.timer.stopped {
          RunFinishes(c, s, t);
          ReportSound(c, s, Ran(c, s, t), Scheduler.Started(Ran(c, s, t).previous.value.status == Success));
        }
      case Fire(id, t) =>
        NotStopped(s, id);
        RunFinishes(c, s, t);
        ReportSound(c, s, Ran(c, s, t), Scheduler.Fired(id, Ran(c, s, t).previous.value.status == Success));
      case Halt =>
        if !s.stopped {
          HaltTimer(c, s);
          Extend(s.trace, Closed);
          Extend(s.trace + [Closed], Halted);
          assert s.trace + [Closed, Halted] == s.trace + [Closed] + [Halted];
        }
    }
  }

  lemma HaltTimer(c: Config, s: State)
    requires Scheduler.Settled(s.timer)
    ensures var timer := Scheduler.Step(s.timer, Scheduler.Stopped, c.schedule);
            Scheduler.Settled(timer) && timer.stopped
  {
    Scheduler.StepSettles(s.timer, Scheduler.Stopped, c.schedule);
  }

  lemma NotStopped(s: State, id: nat)
    requires Scheduler.Settled(s.timer) && id in s.timer.pending
    ensures !s.timer.stopped
  {
  }

  lemma ReportSound(c: Config, was: State, s: State, e: Scheduler.Event)
    requires Sound(was) && Finished(s, was) && !was.stopped && Scheduler.Possible(was.timer, e)
    ensures Sound(Reporting(s).(timer := Scheduler.Step(was.timer, e, c.schedule)))
  {
    hide Legal, IsOpen, HasHalted, HasFailed, LatestSuccess, LatestStored, Scheduler.Settled, Scheduler.Step;
    Extend(s.trace, Reported(s.previous.value));
    Scheduler.StepSettles(was.timer, e, c.schedule);
  }

  /** The inputs of a collector from its beginning: each was possible when it came. */
  ghost predicate IsRun(c: Config, inputs: seq<Input>, states: seq<State>) {
    |states| == |inputs| + 1 && states[0] == INITIAL
    && forall k :: 0 <= k < |inputs| ==> Follows(c, states[k], inputs[k], states[k + 1])
  }

  ghost predicate Follows(c: Config, s: State, i: Input, next: State) {
    Possible(s, i) && Usable(s) && next == Step(c, s, i)
  }

  /** Every run, after each of its inputs, is sound. */
  lemma {:induction false} RunsAreSound(c: Config, inputs: seq<Input>, states: seq<State>, k: nat)
    requires IsRun(c, inputs, states) && k <= |inputs|
    ensures Sound(states[k])
  {
    if k == 0 {
    } else {
      RunsAreSound(c, inputs, states, k - 1);
      assert Follows(c, states[k - 1], inputs[k - 1], states[k]);
      StepSound(c, states[k - 1], inputs[k - 1]);
    }
  }

  // ---------------------------------------------------------------- what reaches the table

  lemma {:induction false} WrittenTotal(stringColumn: bool, appends: seq<Append>)
    ensures |WrittenBy(stringColumn, appends)| <= RowTotal(appends)
    ensures |WrittenBy(stringColumn, appends)| == RowTotal(appends)
            <==> stringColumn || forall r <- Landed(appends) :: r.stringValue.None?
  {
    if appends == [] {
    } else {
      var front, last := appends[..|appends| - 1], appends[|appends| - 1];
      WrittenTotal(stringColumn, front);
      assert appends == front + [last];
      LandedMore(front, last);
      LandedTotal(front);
      LandedTotal(appends);
    }
  }

  /** The report counts exactly the rows that reach the table if and only if the table has the
      string column or no stored row has a string: the cycle goes by the name that is configured
      for the column, the stream by the columns that the table has. */
  lemma CountedIsWritten(x: Setting, m: Mapping)
    ensures |WrittenBy(m.stringValue.Some?, Appends(x))| == StoredTotal(Report(x).methodCalls)
            <==> m.stringValue.Some? || forall r <- StoredRows(x) :: r.stringValue.None?
    ensures !TakesStrings(x.job) ==> |WrittenBy(m.stringValue.Some?, Appends(x))| == StoredTotal(Report(x).methodCalls)
  {
    Conservation(x);
    AppendsLand(x);
    WrittenTotal(m.stringValue.Some?, Appends(x));
    if !TakesStrings(x.job) { NoStrings(x, FirstFailure(x, 0)); NoStrings(x, |x.job.calls|); }
  }

  lemma {:induction false} NoStrings(x: Setting, n: nat)
    requires !TakesStrings(x.job)
    ensures forall r <- RowsBefore(x, n) :: r.stringValue.None?
  {
    if n == 0 {
    } else {
      NoStrings(x, n - 1);
    }
  }

  /** A Job that names a string column which its table does not have: its first cycle reports one
      stored row, and the table has none. */
  lemma CountedNotWritten() returns (c: Config, t: Tick)
    ensures TakesStrings(c.job) && Opens(c.job.database, t.reply).Some?
    ensures var s := Ran(c, INITIAL, t);
      s.written == [] && StoredTotal(s.previous.value.methodCalls) == 1 && s.previous.value.status == Success
  {
    var row := Row("tag", 0, "0", Some("text"));
    var job := Job([Call("1", "call", "i", "m")], PerMethod, Database("VALUE", "TEXT"));
    var columns := [Column("NAME", true, false), Column("TIME", false, true), Column("VALUE", false, false)];
    c := Config(job, 100, Scheduler.Settings(1000, Scheduler.Retry(1, 1, 1.0)));
    t := Tick(Reply(true, true, true, Some(columns), true), i => Rows([row]), i => true, i => i);
    assert job.database.stringValueColumn[0] == 'T';
    WithoutText(columns, job.database);
    var m := MappingOf(columns, job.database).value;
    var x := SettingOf(c, m, None, t);
    OneRow(x, row);
    OnlyStrings(row);
    assert WrittenBy(false, [Append([row], true)]) == [];
  }

  lemma WithoutText(columns: seq<Column>, d: Database)
    requires columns == [Column("NAME", true, false), Column("TIME", false, true), Column("VALUE", false, false)]
    requires d == Database("VALUE", "TEXT")
    ensures MappingOf(columns, d) == Some(Mapping("NAME", "TIME", "VALUE", None))
  {
    Uppers();
    assert "NAME"[0] != "VALUE"[0] && "TIME"[0] != "VALUE"[0];
    assert "NAME"[0] != "TEXT"[0] && "TIME"[1] != "TEXT"[1] && "VALUE"[0] != "TEXT"[0];
    hide Upper;
    var last, rest := [Column("VALUE", false, false)], [Column("TIME", false, true), Column("VALUE", false, false)];
    assert last[1..] == [] && rest[1..] == last && columns[1..] == rest;
    assert ColumnByName(last, "VALUE") == Some("VALUE") && ColumnByName(last, "TEXT") == None;
    assert ColumnByName(rest, "VALUE") == Some("VALUE") && ColumnByName(rest, "TEXT") == None;
    assert BasetimeOf(rest) == "TIME";
  }

  lemma Uppers()
    ensures Upper("NAME") == "NAME" && Upper("TIME") == "TIME" && Upper("VALUE") == "VALUE" && Upper("TEXT") == "TEXT"
  {
    Same("NAME");
    Same("TIME");
    Same("VALUE");
    Same("TEXT");
  }

  lemma {:induction false} Same(s: string)
    requires forall i :: 0 <= i < |s| ==> 'A' <= s[i] <= 'Z'
    ensures Upper(s) == s
  {
    if s == "" {
    } else {
      Same(s[1..]);
    }
  }

  lemma OnlyStrings(row: Row)
    requires row.stringValue.Some?
    ensures Writable(false, [row]) == []
  {
    assert [row][1..] == [];
  }

  lemma OneRow(x: Setting, row: Row)
    requires |x.job.calls| == 1 && x.job.policy == PerMethod && TakesStrings(x.job)
    requires x.outcomes(0) == Rows([row]) && x.appendOk(0, [row])
    ensures Appends(x) == [Append([row], true)] && StoredTotal(Report(x).methodCalls) == 1
              && Report(x).status == Success
  {
    assert RowsAt(x, 0) == [row];
    assert !Fails(x, 0) && FirstFailure(x, 1) == 1 && FirstFailure(x, 0) == 1;
    assert AppendsBefore(x, 1) == [Append([row], true)];
    assert RowsBefore(x, 1) == [row];
    Conservation(x);
  }
}
