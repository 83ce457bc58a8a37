/** What a callback of the collector brings about when nothing fails: its rows reach the table, the
    report says success, and the timer is set again. */
module CollectorOutcome {
  import opened Options
  import opened Cycle
  import opened Appender
  import opened Collector
  import O = CycleOutcome
  import Scheduler

  lemma {:induction false} WrittenLanded(strings: bool, appends: seq<Append>)
    ensures WrittenBy(strings, appends) == Writable(strings, Landed(appends))
  {
    if appends == [] {
    } else {
      var front, last := appends[..|appends| - 1], appends[|appends| - 1];
      assert appends == front + [last];
      WrittenLanded(strings, front);
      LandedMore(front, last);
      WritableJoins(strings, Landed(front), if last.ok then last.rows else []);
    }
  }

  /** The table gets the stored rows of a cycle, in their order, without those that it has no column for. */
  lemma WrittenIs(strings: bool, x: Setting)
    ensures WrittenBy(strings, Appends(x)) == Writable(strings, StoredRows(x))
  {
    hide Writable;
    WrittenLanded(strings, Appends(x));
    AppendsLand(x);
  }

  /** A callback that does something: the first one, or that of the pending timer. */
  predicate Calls(s: State, i: Input) {
    Possible(s, i) && !s.stopped && ((i.Begin? && s.timer.stopped) || i.Fire?)
  }

  /** The columns of the stream that the callback finds or opens. */
  function Columns(c: Config, s: State, t: Tick): Option<Mapping> {
    if s.ready then s.stream else Opens(c.job.database, t.reply)
  }

  /** Every call delivers rows within the limit, and everything is accepted. */
  predicate GoesWell(x: Setting, t: Tick) {
    var n := |x.job.calls|;
    O.NoFault(x, n) && (forall k: nat | k <= n :: t.accepted(k))
    && (x.job.policy == AfterAllMethods ==> |O.Delivered(x, n)| <= x.limit)
  }

  lemma CycleGoesWell(c: Config, m: Mapping, previous: Option<LastRun>, t: Tick)
    requires GoesWell(SettingOf(c, m, previous, t), t)
    ensures var x := SettingOf(c, m, previous, t);
      Report(x).status == Success && StoredRows(x) == O.Delivered(x, |c.job.calls|)
  {
    hide Report, StoredRows, O.Delivered, Writable;
    var x := SettingOf(c, m, previous, t);
    if c.job.policy == AfterAllMethods {
      O.AtOnceSucceeds(x);
    } else {
      O.OneByOneSucceeds(x);
    }
  }

  /** A successful run sets one timer, at the interval. */
  lemma TimerSet(s: Scheduler.State, e: Scheduler.Event, settings: Scheduler.Settings)
    requires Scheduler.Settled(s) && Scheduler.Possible(s, e) && !e.Stopped? && e.success
    requires e.Started? ==> s.stopped
    ensures var s' := Scheduler.Step(s, e, settings);
      s'.timer.Some? && s'.pending == map[s'.timer.value := settings.intervalMs as real]
  {
    if e.Fired? { assert s.pending - {e.id} == map[]; }
  }

  /** After such a callback the table has the rows of all its calls, in order and after those before, less
      the ones it has no column for; success is reported; and one timer is pending at the interval. */
  lemma RowsReachTable(c: Config, s: State, i: Input)
    requires Sound(s) && Calls(s, i) && Columns(c, s, i.tick).Some?
    requires GoesWell(SettingOf(c, Columns(c, s, i.tick).value, s.previous, i.tick), i.tick)
    ensures var s', m := Step(c, s, i), Columns(c, s, i.tick).value;
      var x := SettingOf(c, m, s.previous, i.tick);
      && s'.previous.Some? && s'.previous.value.status == Success
      && s'.trace != [] && s'.trace[|s'.trace| - 1] == Reported(s'.previous.value)
      && s'.written == s.written + Writable(m.stringValue.Some?, O.Delivered(x, |c.job.calls|))
      && s'.timer.timer.Some? && s'.timer.pending == map[s'.timer.timer.value := c.schedule.intervalMs as real]
  {
    hide Legal, IsOpen, HasHalted, HasFailed, LatestSuccess, LatestStored, Report, StoredRows, Appends, EventsOf,
        WrittenBy, Writable, O.Delivered, Scheduler.Step, Opens, GoesWell;
    var m := Columns(c, s, i.tick).value;
    CycleGoesWell(c, m, s.previous, i.tick);
    WrittenIs(m.stringValue.Some?, SettingOf(c, m, s.previous, i.tick));
    if i.Fire? { NotStopped(s, i.id); }
    TimerSet(s.timer, if i.Begin? then Scheduler.Started(true) else Scheduler.Fired(i.id, true), c.schedule);
  }

  /** Where the stream is not ready and cannot be opened, the callback writes nothing, and reports that with
      the times of the report before. */
  lemma FailedOpenReports(c: Config, s: State, i: Input)
    requires Sound(s) && Calls(s, i) && !s.ready && Opens(c.job.database, i.tick.reply).None?
    ensures var s' := Step(c, s, i);
      && s'.written == s.written && s'.stream.None? && !s'.ready
      && s'.previous.Some? && s'.previous.value.status == Failed && s'.previous.value.methodCalls == []
      && s'.previous.value.lastSuccessfulRunAt == LatestSuccess(s.trace)
      && s'.previous.value.lastStoredAt == LatestStored(s.trace)
      && s'.trace == s.trace + [Opened(false), Closed, Reported(s'.previous.value)]
  {
    hide Legal, IsOpen, HasHalted, HasFailed, LatestSuccess, LatestStored, Scheduler.Step, Opens;
    if i.Fire? { NotStopped(s, i.id); }
  }
}
