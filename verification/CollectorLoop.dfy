/** The collector as the object that startCollector makes, with the loop of runCycle. Its methods
    are proved to take the steps of module Collector, about whose runs the properties are. */
module CollectorLoop {
  import opened Options
  import opened Cycle
  import Appender
  import Scheduler
  import opened Collector

  /** The report of a call while the cycle goes on: what afterAllMethods stores is not counted yet. */
  ghost function Draft(x: Setting, i: nat): MethodResult
    requires i < |x.job.calls|
  {
    MethodResult(x.job.calls[i], x.clock(1 + 2 * i), x.clock(2 + 2 * i), if Fails(x, i) then Failed else Success,
                 if !Fails(x, i) && x.job.policy == PerMethod then |RowsAt(x, i)| else 0,
                 if Fails(x, i) then Some(ShortError(ErrorAt(x, i))) else None)
  }

  /** The calls before number n were made and went well. */
  ghost predicate WellUpTo(x: Setting, n: nat) { n <= |x.job.calls| && forall k: nat :: k < n ==> !Fails(x, k) }

  lemma FirstIs(x: Setting, n: nat)
    requires WellUpTo(x, n) && (n == |x.job.calls| || Fails(x, n))
    ensures FirstFailure(x, 0) == n
  {
  }

  /** The append of call i, if it makes one. */
  ghost function Calling(x: Setting, i: nat): (r: seq<Append>)
    ensures |r| <= 1
  {
    if x.job.policy == PerMethod && RowsAt(x, i) != [] then [Append(RowsAt(x, i), x.appendOk(i, RowsAt(x, i)))] else []
  }

  lemma NoEvents(strings: bool)
    ensures EventsOf([]) == [] && WrittenBy(strings, []) == [] && AllAppended([])
  {
  }

  lemma OneEvent(strings: bool, a: Append)
    ensures EventsOf([a]) == if a.ok then [Appended(a.rows, true)] else [Appended(a.rows, false)] + [Closed]
    ensures WrittenBy(strings, [a]) == (if a.ok then Writable(strings, a.rows) else [])
    ensures AllAppended([a]) == a.ok
  {
    hide Writable;
    NoEvents(strings);
    EventsMore([], a);
    WrittenMore(strings, [], a);
    assert [] + [a] == [a];
    assert a in [a];
  }

  lemma WrittenMore(strings: bool, appends: seq<Append>, last: Append)
    ensures WrittenBy(strings, appends + [last])
            == WrittenBy(strings, appends) + (if last.ok then Writable(strings, last.rows) else [])
  {
    assert (appends + [last])[..|appends|] == appends;
  }

  /** The appends so far and those of one more call. */
  lemma Together(strings: bool, done: seq<Append>, more: seq<Append>)
    requires |more| <= 1 && AllAppended(done)
    ensures EventsOf(done + more) == EventsOf(done) + EventsOf(more)
    ensures WrittenBy(strings, done + more) == WrittenBy(strings, done) + WrittenBy(strings, more)
    ensures AllAppended(done + more) == AllAppended(more)
  {
    hide Writable;
    if more == [] {
      NoEvents(strings);
      assert done + more == done;
    } else {
      var a := more[0];
      assert more == [a];
      OneEvent(strings, a);
      EventsMore(done, a);
      WrittenMore(strings, done, a);
      LastDecides(done, a);
    }
  }

  lemma CallAppends(x: Setting, i: nat)
    requires !Fails(x, i)
    ensures AppendsBefore(x, i + 1) == AppendsBefore(x, i) + Calling(x, i)
    ensures AllAppended(Calling(x, i)) && |Calling(x, i)| <= 1
  {
    hide RowsAt;
  }

  /** What the append at the end makes of the report of a call. */
  function Settle(m: MethodResult, ok: bool, count: nat): MethodResult {
    if ok then m.(storedCount := count) else m.(status := Failed, error := Some(ShortError(APPEND_FAILED)))
  }

  /** The cycle ends without an append of all rows. */
  lemma CutShort(x: Setting)
    requires x.job.policy == PerMethod || FirstFailure(x, 0) < |x.job.calls|
    ensures var first, n := FirstFailure(x, 0), |x.job.calls|;
      Appends(x) == (if first < n then AppendsBefore(x, first) + Calling(x, first) else AppendsBefore(x, first))
      && !EndRefused(x) && (AllWell(x) <==> first == n)
      && forall k :: 0 <= k < CallsMade(x) ==> MethodReport(x, k) == Draft(x, k)
  {
    hide RowsAt, ShortError, AppendsBefore, RowsBefore;
    var first := FirstFailure(x, 0);
    if first < |x.job.calls| { NoRowsOfFault(x, first); NothingBefore(x, first); }
  }

  lemma NoRowsOfFault(x: Setting, i: nat)
    ensures x.outcomes(i).Fault? ==> RowsAt(x, i) == []
  {
  }

  lemma NothingBefore(x: Setting, n: nat)
    ensures x.job.policy == AfterAllMethods ==> AppendsBefore(x, n) == []
  {
  }

  /** The cycle ends with the append of all rows, if there are any. */
  lemma AllMade(x: Setting, buffered: seq<Row>, ok: bool)
    requires x.job.policy == AfterAllMethods && FirstFailure(x, 0) == |x.job.calls|
    requires buffered == RowsBefore(x, |x.job.calls|) && ok == (buffered == [] || x.appendOk(|x.job.calls|, buffered))
    ensures Appends(x) == (if buffered == [] then [] else [Append(buffered, ok)])
    ensures AppendsBefore(x, |x.job.calls|) == []
    ensures EndRefused(x) == !ok && AllWell(x) == ok
    ensures forall k :: 0 <= k < |x.job.calls| ==> MethodReport(x, k) == Settle(Draft(x, k), ok, |RowsAt(x, k)|)
  {
    hide RowsAt, ShortError, RowsBefore;
  }

  lemma StoredAmount(x: Setting)
    ensures StoredRows(x) == if x.job.policy == PerMethod then RowsBefore(x, FirstFailure(x, 0))
              else if AllWell(x) then RowsBefore(x, |x.job.calls|) else []
  {
  }

  lemma ReportIs(x: Setting, results: seq<MethodResult>, stored: nat, cycleError: Option<string>)
    requires results == MethodReports(x, CallsMade(x)) && stored == |StoredRows(x)|
    requires cycleError == if AllWell(x) then None
                           else Some(if EndRefused(x) then APPEND_FAILED else ErrorAt(x, FirstFailure(x, 0)))
    ensures var completedAt := x.clock(1 + 2 * |results|);
      var status := if cycleError.Some? then if stored > 0 then Partial else Failed else Success;
      Report(x) == LastRun(x.clock(0), completedAt, status, results, completedAt,
                           if status == Success then Some(completedAt) else PreviousSuccess(x.previous),
                           if stored > 0 then Some(completedAt) else PreviousStored(x.previous),
                           if cycleError.Some? then Some(ShortError(cycleError.value)) else None)
  {
    hide MethodReports, ShortError, EndRefused, ErrorAt, FirstFailure, StoredRows;
  }

  lemma StartsEmpty(x: Setting, strings: bool)
    ensures WellUpTo(x, 0) && RowsBefore(x, 0) == [] && AppendsBefore(x, 0) == []
    ensures EventsOf([]) == [] && WrittenBy(strings, []) == [] && AllAppended([])
  {
  }

  lemma RowsMore(x: Setting, i: nat)
    ensures RowsBefore(x, i + 1) == RowsBefore(x, i) + RowsAt(x, i)
  {
  }

  /** startCollector. */
  class Process {
    const config: Config
    const stream: Appender.Stream
    const timer: Scheduler.Timer
    var previous: Option<LastRun>
    var stopped: bool
    var databaseReady: bool
    var trace: seq<Event>

    predicate Valid()
      reads this, stream
    {
      stream.Valid() && timer.settings == config.schedule
    }

    function Now(): State
      reads this, stream, timer
    {
      State(stream.mapping, databaseReady, stopped, previous, stream.written, timer.Now(), trace)
    }

    constructor (config: Config)
      ensures Valid() && fresh(stream) && fresh(timer) && this.config == config && Now() == INITIAL
    {
      this.config := config;
      stream := new Appender.Stream();
      timer := new Scheduler.Timer(config.schedule);
      previous, stopped, databaseReady, trace := None, false, false, [];
    }

    /** cycleDatabase.append; false where it throws. */
    method Store(rows: seq<Row>, accepted: bool) returns (ok: bool)
      requires Valid() && stream.mapping.Some?
      modifies this`databaseReady, this`trace, stream
      ensures Valid()
      ensures ok == (accepted || Writable(old(stream.mapping).value.stringValue.Some?, rows) == [])
      ensures stream.mapping == (if ok then old(stream.mapping) else None)
      ensures stream.written
              == old(stream.written) + if ok then Writable(old(stream.mapping).value.stringValue.Some?, rows) else []
      ensures databaseReady == (old(databaseReady) && ok)
      ensures trace == if ok then old(trace) + [Appended(rows, true)]
                else old(trace) + [Appended(rows, false)] + [Closed]
    {
      var count := stream.Append(rows, accepted);
      ok := count.Some?;
      trace := trace + [Appended(rows, ok)];
      if !ok {
        databaseReady := false;
        stream.Close();
        trace := trace + [Closed];
      }
    }

    /** What runCycle tries for one call; its error, or the rows of the call. */
    method TryCall(i: nat, t: Tick, buffered: nat, ghost x: Setting) returns (error: Option<string>, rows: seq<Row>)
      requires Valid() && stream.mapping.Some? && databaseReady
      requires x == SettingOf(config, stream.mapping.value, previous, t)
      requires x.job.policy == AfterAllMethods ==> buffered == |RowsBefore(x, i)|
      modifies this`databaseReady, this`trace, stream
      ensures Valid()
      ensures error == if Fails(x, i) then Some(ErrorAt(x, i)) else None
      ensures error.None? ==> rows == RowsAt(x, i)
      ensures databaseReady == AllAppended(Calling(x, i))
      ensures stream.mapping == if AllAppended(Calling(x, i)) then old(stream.mapping) else None
      ensures stream.written == old(stream.written)
                + WrittenBy(old(stream.mapping).value.stringValue.Some?, Calling(x, i))
      ensures trace == old(trace) + EventsOf(Calling(x, i))
    {
      hide Writable, RowsBefore, EventsOf, WrittenBy;
      ghost var strings := stream.mapping.value.stringValue.Some?;
      match t.outcomes(i) {
        case Fault(message) =>
          NoEvents(strings);
          return Some(message), [];
        case Rows(found) =>
          rows := Writable(TakesStrings(config.job), found);
          assert rows == RowsAt(x, i);
          if config.job.policy == AfterAllMethods {
            NoEvents(strings);
            if buffered + |rows| > config.limit { return Some(BUFFER_FULL), rows; }
          } else if rows != [] {
            var ok := Store(rows, t.accepted(i));
            OneEvent(strings, Append(rows, ok));
            if !ok { return Some(APPEND_FAILED), rows; }
          } else {
            NoEvents(strings);
          }
          return None, rows;
      }
    }

    /** The stream, the flag and the trace after some appends that began in a given state. */
    ghost predicate Has(s: State, appends: seq<Append>)
      requires s.stream.Some?
      reads this, stream
    {
      databaseReady == AllAppended(appends)
      && stream.mapping == (if AllAppended(appends) then s.stream else None)
      && stream.written == s.written + WrittenBy(s.stream.value.stringValue.Some?, appends)
      && trace == s.trace + [Began] + EventsOf(appends)
    }

    /** The calls of runCycle, up to the first that fails. */
    method MakeCalls(t: Tick, ghost x: Setting, ghost s: State)
      returns (results: seq<MethodResult>, buffered: seq<Row>, counts: seq<nat>, stored: nat,
          cycleError: Option<string>)
      requires Valid() && s.stream.Some? && Has(s, []) && databaseReady
      requires x == SettingOf(config, s.stream.value, previous, t)
      modifies this`databaseReady, this`trace, stream
      ensures Valid()
      ensures var first := FirstFailure(x, 0);
        |results| == CallsMade(x) && (forall k :: 0 <= k < |results| ==> results[k] == Draft(x, k))
        && (buffered == if x.job.policy == AfterAllMethods then RowsBefore(x, first) else [])
        && (stored == if x.job.policy == PerMethod then |RowsBefore(x, first)| else 0)
        && (x.job.policy == AfterAllMethods ==>
              |counts| == first && forall k :: 0 <= k < first ==> counts[k] == |RowsAt(x, k)|)
        && (x.job.policy == PerMethod ==> counts == [])
        && (cycleError == if first < |x.job.calls| then Some(ErrorAt(x, first)) else None)
        && Has(s, if first < |x.job.calls| then AppendsBefore(x, first) + Calling(x, first)
            else AppendsBefore(x, first))
        && (cycleError.None? ==> AllAppended(AppendsBefore(x, first)))
    {
      hide Writable, RowsAt, ShortError, ErrorAt, FirstFailure, AppendsBefore, RowsBefore, EventsOf, WrittenBy,
          Calling, Fails, AllAppended;
      results, buffered, counts, stored, cycleError := [], [], [], 0, None;
      var calls := config.job.calls;
      var index := 0;
      StartsEmpty(x, s.stream.value.stringValue.Some?);
      while index < |calls|
        invariant index <= |calls| && WellUpTo(x, index) && Valid()
        invariant |results| == index && forall k :: 0 <= k < index ==> results[k] == Draft(x, k)
        invariant buffered == if x.job.policy == AfterAllMethods then RowsBefore(x, index) else []
        invariant stored == if x.job.policy == PerMethod then |RowsBefore(x, index)| else 0
        invariant x.job.policy == AfterAllMethods ==>
                    |counts| == index && forall k :: 0 <= k < index ==> counts[k] == |RowsAt(x, k)|
        invariant x.job.policy == PerMethod ==> counts == []
        invariant cycleError.None?
        invariant AllAppended(AppendsBefore(x, index)) && Has(s, AppendsBefore(x, index))
      {
        var requestedAt := t.clock(1 + 2 * index);
        var error, rows := TryCall(index, t, |buffered|, x);
        Together(s.stream.value.stringValue.Some?, AppendsBefore(x, index), Calling(x, index));
        assert Has(s, AppendsBefore(x, index) + Calling(x, index));
        var result := MethodResult(calls[index], requestedAt, t.clock(2 + 2 * index),
                                   if error.Some? then Failed else Success,
                                   if error.None? && config.job.policy == PerMethod then |rows| else 0,
                                   if error.Some? then Some(ShortError(error.value)) else None);
        results := results + [result];
        if error.Some? {
          cycleError := error;
          FirstIs(x, index);
          break;
        }
        CallAppends(x, index);
        if config.job.policy == AfterAllMethods {
          buffered := buffered + rows;
          counts := counts + [|rows|];
        } else {
          stored := stored + |rows|;
        }
        RowsMore(x, index);
        index := index + 1;
      }
      if cycleError.None? { FirstIs(x, index); }
    }

    /** The append of all rows after the last call, and what it makes of the reports. */
    method AppendAll(t: Tick, drafts: seq<MethodResult>, buffered: seq<Row>, counts: seq<nat>, ghost x: Setting,
        ghost s: State)
      returns (ok: bool, results: seq<MethodResult>)
      requires Valid() && s.stream.Some? && databaseReady && stream.mapping == s.stream && Has(s, [])
      requires x == SettingOf(config, s.stream.value, previous, t) && x.job.policy == AfterAllMethods
      requires FirstFailure(x, 0) == |x.job.calls| && buffered == RowsBefore(x, |x.job.calls|)
      requires |drafts| == |counts| == |x.job.calls|
      requires forall k :: 0 <= k < |drafts| ==> drafts[k] == Draft(x, k) && counts[k] == |RowsAt(x, k)|
      modifies this`databaseReady, this`trace, stream
      ensures Valid() && Has(s, Appends(x)) && ok == AllWell(x) && EndRefused(x) == !ok
      ensures results == MethodReports(x, |x.job.calls|)
    {
      hide Writable, RowsAt, ShortError, ErrorAt, FirstFailure, AppendsBefore, RowsBefore, EventsOf, WrittenBy, Fails,
           AllAppended, MethodReport, Draft, Settle, EndRefused, AllWell, Appends;
      var n := |drafts|;
      NoEvents(s.stream.value.stringValue.Some?);
      ok := true;
      if buffered != [] {
        ok := Store(buffered, t.accepted(n));
        OneEvent(s.stream.value.stringValue.Some?, Append(buffered, ok));
      }
      AllMade(x, buffered, ok);
      results := drafts;
      for k := 0 to n
        invariant |results| == n && forall i :: k <= i < n ==> results[i] == drafts[i]
        invariant forall i :: 0 <= i < k ==> results[i] == Settle(drafts[i], ok, counts[i])
      {
        results := results[k := Settle(results[k], ok, counts[k])];
      }
    }

    /** runCycle. */
    method RunCycle(t: Tick) returns (r: LastRun)
      requires Valid() && stream.mapping.Some? && databaseReady
      modifies this`databaseReady, this`trace, stream
      ensures Valid()
      ensures r == Report(SettingOf(config, old(stream.mapping).value, previous, t))
      ensures Now().(previous := Some(r)) == Cycled(config, old(Now()), t)
    {
      hide Writable, RowsAt, ShortError, ErrorAt, FirstFailure, AppendsBefore, RowsBefore, EventsOf, WrittenBy,
          Calling, Fails, AllAppended,
           MethodReport, Draft, EndRefused, AllWell, StoredRows, Appends, Report;
      ghost var s := Now();
      ghost var x := SettingOf(config, stream.mapping.value, previous, t);
      var startedAt := t.clock(0);
      trace := trace + [Began];
      NoEvents(stream.mapping.value.stringValue.Some?);
      StartsEmpty(x, stream.mapping.value.stringValue.Some?);
      var results, buffered, counts, stored, cycleError := MakeCalls(t, x, s);
      if cycleError.None? && config.job.policy == AfterAllMethods {
        NothingBefore(x, |x.job.calls|);
        var ok;
        ok, results := AppendAll(t, results, buffered, counts, x, s);
        if ok { stored := |buffered|; } else { cycleError := Some(APPEND_FAILED); }
      } else {
        CutShort(x);
        assert results == MethodReports(x, CallsMade(x));
      }
      StoredAmount(x);
      ReportIs(x, results, stored, cycleError);
      var completedAt := t.clock(1 + 2 * |results|);
      var status := if cycleError.Some? then if stored > 0 then Partial else Failed else Success;
      r := LastRun(startedAt, completedAt, status, results, completedAt,
                   if status == Success then Some(completedAt) else PreviousSuccess(previous),
                   if stored > 0 then Some(completedAt) else PreviousStored(previous),
                   if cycleError.Some? then Some(ShortError(cycleError.value)) else None);
    }

    /** The callback that the scheduler runs. */
    method Run(t: Tick) returns (r: LastRun)
      requires Valid() && (databaseReady ==> stream.mapping.Some?)
      modifies this`databaseReady, this`trace, this`previous, stream
      ensures Valid() && previous == Some(r)
      ensures Now() == Ran(config, old(Now()), t)
    {
      hide Cycled, Report, Appender.Opens;
      if !databaseReady {
        var ok := stream.Open(config.job.database, t.reply);
        trace := trace + [Opened(ok)];
        if !ok {
          stream.Close();
          trace := trace + [Closed];
          assert trace == old(trace) + [Opened(false), Closed];
          r := SetupFailure(previous, t.clock(0));
          previous := Some(r);
          return;
        }
        databaseReady := true;
      }
      r := RunCycle(t);
      previous := Some(r);
    }

    /** The first callback, which startCollector makes at once. */
    method Begin(t: Tick)
      requires Valid() && Usable(Now()) && !stopped
      modifies this, stream, timer
      ensures Valid()
      ensures Now() == Step(config, old(Now()), Input.Begin(t))
    {
      hide Ran, Scheduler.Step;
      if !timer.stopped { return; }
      var r := Run(t);
      trace := trace + [Reported(r)];
      timer.Start(r.status == Success);
    }

    /** A timer fires. */
    method Fire(id: nat, t: Tick)
      requires Valid() && Usable(Now()) && id in timer.pending
      modifies this, stream, timer
      ensures Valid()
      ensures Now() == Step(config, old(Now()), Input.Fire(id, t))
    {
      hide Ran;
      if timer.stopped {
        timer.Fire(id, false);
        return;
      }
      var r := Run(t);
      trace := trace + [Reported(r)];
      timer.Fire(id, r.status == Success);
    }

    /** shutdown. */
    method Halt()
      requires Valid() && Usable(Now())
      modifies this, stream, timer
      ensures Valid() && stopped
      ensures Now() == Step(config, old(Now()), Input.Halt)
    {
      if stopped { return; }
      stopped := true;
      timer.Stop();
      stream.Close();
      trace := trace + [Closed, Halted];
    }
  }
}
