/** When a cycle succeeds, what it stores, and which error it reports: from what the calls deliver,
    the limit and the answers of the appends alone. */
module CycleOutcome {
  import opened Options
  import opened Cycle

  /** The lists of rows that the first n calls deliver. */
  function Found(x: Setting, n: nat): (r: seq<seq<Row>>)
    ensures |r| == n
    ensures forall i :: 0 <= i < n ==> r[i] == match x.outcomes(i) case Rows(rows) => rows case Fault(_) => []
  {
    seq(n, i requires 0 <= i => match x.outcomes(i) case Rows(rows) => rows case Fault(_) => [])
  }

  function Concat(lists: seq<seq<Row>>): seq<Row> {
    if lists == [] then [] else lists[0] + Concat(lists[1..])
  }

  /** The rows that the first n calls deliver and the table can take, one call after the other. */
  function Delivered(x: Setting, n: nat): seq<Row> {
    Writable(TakesStrings(x.job), Concat(Found(x, n)))
  }

  /** What a call delivers and the table can take. */
  function Single(x: Setting, i: nat): seq<Row> {
    match x.outcomes(i) case Rows(rows) => Writable(TakesStrings(x.job), rows) case Fault(_) => []
  }

  predicate NoFault(x: Setting, n: nat) { forall i: nat | i < n :: x.outcomes(i).Rows? }

  // ---------------------------------------------------------------- the rows

  lemma {:induction false} ConcatMore(lists: seq<seq<Row>>, last: seq<Row>)
    ensures Concat(lists + [last]) == Concat(lists) + last
  {
    if lists == [] {
      assert lists + [last] == [last] && [last][1..] == [];
    } else {
      ConcatMore(lists[1..], last);
      assert (lists + [last])[1..] == lists[1..] + [last];
      Associative(lists[0], Concat(lists[1..]), last);
    }
  }

  lemma DeliveredMore(x: Setting, n: nat)
    ensures Delivered(x, n + 1) == Delivered(x, n) + Single(x, n)
    ensures Delivered(x, 0) == []
  {
    var last := match x.outcomes(n) case Rows(rows) => rows case Fault(_) => [];
    assert Found(x, n + 1) == Found(x, n) + [last];
    ConcatMore(Found(x, n), last);
    WritableJoins(TakesStrings(x.job), Concat(Found(x, n)), last);
  }

  lemma {:induction false} DeliveredIs(x: Setting, n: nat)
    ensures RowsBefore(x, n) == Delivered(x, n)
  {
    hide Delivered;
    if n == 0 {
      DeliveredMore(x, 0);
    } else {
      DeliveredIs(x, n - 1);
      DeliveredMore(x, n - 1);
    }
  }

  lemma {:induction false} DeliveredGrows(x: Setting, m: nat, n: nat)
    requires m <= n
    ensures |Delivered(x, m)| <= |Delivered(x, n)|
    decreases n - m
  {
    hide Delivered;
    if m == n {
    } else {
      DeliveredMore(x, m);
      DeliveredGrows(x, m + 1, n);
    }
  }

  lemma FirstIs(x: Setting, i: nat)
    requires i <= |x.job.calls| && (forall k: nat | k < i :: !Fails(x, k)) && (i < |x.job.calls| ==> Fails(x, i))
    ensures FirstFailure(x, 0) == i
  {
    hide Fails;
    var r := FirstFailure(x, 0);
    assert r >= i;
  }

  /** The reports of the calls before number n, all of them well, with the rows counted or not. */
  ghost predicate WellReported(x: Setting, n: nat, counted: bool) {
    && n <= |Report(x).methodCalls| && n <= |x.job.calls|
    && forall k :: 0 <= k < n ==>
         var r := Report(x).methodCalls[k];
         && r.call == x.job.calls[k] && r.status == Success && r.error.None?
         && r.storedCount == if counted then |Single(x, k)| else 0
  }

  /** The cycle ends with call i, and reports its error. */
  ghost predicate EndsAt(x: Setting, i: nat, message: string) {
    && |Report(x).methodCalls| == i + 1 && i < |x.job.calls|
    && Report(x).lastError == Some(ShortError(message))
    && (var r := Report(x).methodCalls[i];
        r.call == x.job.calls[i] && r.status == Failed && r.storedCount == 0 && r.error == Some(ShortError(message)))
  }

  // ---------------------------------------------------------------- afterAllMethods

  lemma FitsMeans(x: Setting, i: nat)
    requires x.job.policy == AfterAllMethods
    ensures Fails(x, i) <==> x.outcomes(i).Fault? || |Delivered(x, i + 1)| > x.limit
    ensures Overflows(x, i) <==> |Delivered(x, i + 1)| > x.limit
  {
    hide Delivered;
    DeliveredMore(x, i);
    DeliveredIs(x, i);
  }

  /** Every call is made and none fails, exactly if no call is a fault and all rows together fit. */
  lemma AllFit(x: Setting)
    requires x.job.policy == AfterAllMethods
    ensures FirstFailure(x, 0) == |x.job.calls|
            <==> NoFault(x, |x.job.calls|) && (|x.job.calls| > 0 ==> |Delivered(x, |x.job.calls|)| <= x.limit)
  {
    hide Delivered, Fails, Overflows;
    var n := |x.job.calls|;
    if FirstFailure(x, 0) == n {
      forall i: nat | i < n ensures x.outcomes(i).Rows? { FitsMeans(x, i); }
      if n > 0 { FitsMeans(x, n - 1); }
    } else if NoFault(x, n) {
      var i := FirstFailure(x, 0);
      FitsMeans(x, i);
      DeliveredGrows(x, i + 1, n);
    }
  }

  /** Under afterAllMethods a cycle succeeds exactly if no call is a fault, the rows of all calls that
      the table can take are no more than the limit, and their append is accepted or there is nothing to
      append; then it stores these rows, in the order of the calls, and otherwise none. */
  lemma AtOnceSucceeds(x: Setting)
    requires x.job.policy == AfterAllMethods
    ensures var n := |x.job.calls|;
      && (Report(x).status == Success
          <==> NoFault(x, n) && |Delivered(x, n)| <= x.limit
               && (Delivered(x, n) == [] || x.appendOk(n, Delivered(x, n))))
      && StoredRows(x) == (if Report(x).status == Success then Delivered(x, n) else [])
      && (Report(x).status == Success ==> |Report(x).methodCalls| == n && WellReported(x, n, true))
  {
    hide Delivered, Fails, FirstFailure, RowsBefore;
    var n := |x.job.calls|;
    AllFit(x);
    DeliveredIs(x, n);
    if n == 0 { DeliveredMore(x, 0); }
    if Report(x).status == Success { WellMeans(x, n); }
  }

  lemma WellMeans(x: Setting, n: nat)
    requires n <= FirstFailure(x, 0) && !EndRefused(x)
    ensures WellReported(x, n, x.job.policy == PerMethod || AllWell(x))
  {
    hide FirstFailure, RowsBefore;
  }

  /** The first call that is a fault, or with whose rows the limit is passed, ends the cycle: with its own
      message, or as a full buffer; nothing is stored, and the calls before are reported as well. */
  lemma AtOnceEnds(x: Setting, i: nat)
    requires x.job.policy == AfterAllMethods && i < |x.job.calls| && NoFault(x, i)
    requires i > 0 ==> |Delivered(x, i)| <= x.limit
    requires x.outcomes(i).Fault? || |Delivered(x, i + 1)| > x.limit
    ensures EndsAt(x, i, if x.outcomes(i).Fault? then x.outcomes(i).message else BUFFER_FULL)
    ensures WellReported(x, i, false) && StoredRows(x) == [] && Report(x).status == Failed
  {
    hide Delivered, Fails, RowsBefore;
    FitsMeans(x, i);
    forall k: nat | k < i ensures !Fails(x, k) {
      FitsMeans(x, k);
      DeliveredGrows(x, k + 1, i);
    }
    FirstIs(x, i);
    WellMeans(x, i);
  }

  /** Where all rows fit and their append is refused, every call is reported as failed with it. */
  lemma AtOnceRefused(x: Setting)
    requires x.job.policy == AfterAllMethods && NoFault(x, |x.job.calls|)
    requires |Delivered(x, |x.job.calls|)| <= x.limit && Delivered(x, |x.job.calls|) != []
    requires !x.appendOk(|x.job.calls|, Delivered(x, |x.job.calls|))
    ensures Report(x).status == Failed && Report(x).lastError == Some(ShortError(APPEND_FAILED))
    ensures |Report(x).methodCalls| == |x.job.calls|
    ensures forall r <- Report(x).methodCalls ::
              r.status == Failed && r.storedCount == 0 && r.error == Some(ShortError(APPEND_FAILED))
  {
    hide Delivered, Fails, FirstFailure, RowsBefore;
    AllFit(x);
    DeliveredIs(x, |x.job.calls|);
    AtOnceSucceeds(x);
  }

  // ---------------------------------------------------------------- perMethod

  /** The call delivers rows, and their append is accepted or there is nothing to append. */
  predicate Lands(x: Setting, i: nat) {
    x.outcomes(i).Rows? && (Single(x, i) == [] || x.appendOk(i, Single(x, i)))
  }

  lemma LandsMeans(x: Setting, i: nat)
    requires x.job.policy == PerMethod
    ensures Fails(x, i) <==> !Lands(x, i)
  {
  }

  /** Under perMethod a cycle succeeds exactly if every call lands, and then stores the rows of all. */
  lemma OneByOneSucceeds(x: Setting)
    requires x.job.policy == PerMethod
    ensures var n := |x.job.calls|;
      && (Report(x).status == Success <==> forall i: nat | i < n :: Lands(x, i))
      && (Report(x).status == Success ==>
            StoredRows(x) == Delivered(x, n) && |Report(x).methodCalls| == n && WellReported(x, n, true))
  {
    hide Delivered, Fails, Lands, FirstFailure, RowsBefore;
    var n := |x.job.calls|;
    DeliveredIs(x, n);
    if FirstFailure(x, 0) == n {
      forall i: nat | i < n ensures Lands(x, i) { LandsMeans(x, i); }
      WellMeans(x, n);
    } else {
      LandsMeans(x, FirstFailure(x, 0));
    }
  }

  /** The first call that does not land ends the cycle with its own message, or as a failed append; what
      the calls before it delivered is stored. */
  lemma OneByOneEnds(x: Setting, i: nat)
    requires x.job.policy == PerMethod && i < |x.job.calls|
    requires (forall k: nat | k < i :: Lands(x, k)) && !Lands(x, i)
    ensures EndsAt(x, i, if x.outcomes(i).Fault? then x.outcomes(i).message else APPEND_FAILED)
    ensures WellReported(x, i, true) && StoredRows(x) == Delivered(x, i)
    ensures Report(x).status == if Delivered(x, i) != [] then Partial else Failed
  {
    hide Delivered, Fails, RowsBefore, FirstFailure;
    DeliveredIs(x, i);
    LandsMeans(x, i);
    forall k: nat | k < i ensures !Fails(x, k) { LandsMeans(x, k); }
    FirstIs(x, i);
    WellMeans(x, i);
  }

  // ---------------------------------------------------------------- times

  /** With a clock that does not go back, the times of a report follow each other in the order of the
      calls, and all lie between its beginning and its end. */
  lemma TimesInOrder(x: Setting)
    requires forall i: nat, j: nat | i <= j :: x.clock(i) <= x.clock(j)
    ensures var r := Report(x);
      && r.startedAt <= r.completedAt == r.lastRunAt
      && (forall k :: 0 <= k < |r.methodCalls| ==>
            && r.methodCalls[k].call == x.job.calls[k]
            && r.startedAt <= r.methodCalls[k].requestedAt <= r.methodCalls[k].completedAt <= r.completedAt)
      && (forall k :: 0 < k < |r.methodCalls| ==> r.methodCalls[k - 1].completedAt <= r.methodCalls[k].requestedAt)
  {
    hide FirstFailure, RowsBefore;
  }
}
