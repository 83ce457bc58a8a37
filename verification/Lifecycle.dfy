/** Package stop, start and uninstall of generic Jobs (scripts/lifecycle.js), with the Job
    operations they call (start, stopForPackage and delete of cgi-bin/src/jobs/manager.js).

    The service controller, the locks and the files answer as a script says. Between two actions
    the Jobs may change in any way; within one action only the action changes them. */
module Lifecycle {
  import opened Text

  datatype Controller = NotInstalled | Stopped | Failed | Running | Starting | Stopping | Unknown

  predicate Active(c: Controller) { c.Running? || c.Starting? || c.Stopping? }

  predicate Idle(c: Controller) { c.NotInstalled? || c.Stopped? || c.Failed? }

  predicate Startable(c: Controller) { c.Stopped? || c.Failed? }

  predicate Known(c: Controller) { !c.Unknown? }

  /** The list of names in package-stop-state.json. */
  datatype File = Missing | Names(names: seq<string>) | Unreadable

  /** What one Job operation meets: whether its lock and its documents are in order, whether the
      controller answers a status query, its install, database check and main call, the state
      it reports afterwards, and whether the config file can be removed. */
  datatype Script = Script(ready: bool, status: bool, install: bool, installed: Controller, database: bool,
                           call: bool, after: Controller, statusAfter: bool, remove: bool)

  /** What one package action meets: the session fence, the list of Jobs, their locks, the
      checkpoint file, the release of the session, and a script per Job. */
  datatype Env = Env(session: bool, list: bool, listing: seq<string>, locks: bool, write: bool, clear: bool,
                     release: bool, script: string -> Script)

  datatype World = World(jobs: map<string, Controller>, checkpoint: File, started: seq<string>, deleted: set<string>)

  // ---------------------------------------------------------------- operations on one Job

  datatype Result = Result(ok: bool, state: Controller)

  /** start: a Job that is known and not active, installed first where it is not, ends up running
      or starting; one that is refused before the controller is asked stays as it is. */
  function StartJob(c: Controller, s: Script): (r: Result)
    ensures r.ok <==> s.ready && s.status && Known(c) && !Active(c) && s.database && s.call && s.statusAfter
                      && (c.NotInstalled? ==> s.install && s.installed.Stopped?)
                          && (s.after.Running? || s.after.Starting?)
    ensures r.ok ==> r.state == s.after && Active(r.state)
    ensures !s.ready || !s.status || c.Unknown? || Active(c) ==> r.state == c
    ensures Startable(c) && !s.database ==> r.state == c
  {
    if !s.ready || !s.status || c.Unknown? || Active(c) then Result(false, c)
    else if c.NotInstalled? && !s.install then Result(false, c)
    else if c.NotInstalled? && s.installed != Stopped then Result(false, s.installed)
    else
      var installed := if c.NotInstalled? then s.installed else c;
      if !s.database then Result(false, installed)
      else if !s.call || !s.statusAfter then Result(false, s.after)
      else Result(s.after.Running? || s.after.Starting?, s.after)
  }

  /** stopForPackage in a session: an idle Job is left alone, an active one stopped; only an active
      Job that the controller is asked to stop can change. */
  function StopJob(c: Controller, s: Script): (r: Result)
    ensures r.ok <==> s.ready && s.status && Known(c) && (Active(c) ==> s.call && s.statusAfter && Idle(s.after))
    ensures r.ok ==> Idle(r.state)
    ensures r.state == if s.ready && s.status && Active(c) then s.after else c
  {
    if !s.ready || !s.status || c.Unknown? then Result(false, c)
    else if Idle(c) then Result(true, c)
    else if !s.call || !s.statusAfter then Result(false, s.after)
    else Result(Idle(s.after), s.after)
  }

  /** delete in a session: the state that is left, if any is. */
  function DeleteJob(c: Controller, s: Script): (r: Result)
    ensures r.ok <==> s.ready && s.status && Idle(c) && s.remove && (!c.NotInstalled? ==> s.call)
    ensures !s.ready || !s.status || !Startable(c) ==> r.state == c
    ensures s.ready && s.status && Startable(c) ==> r.state == if s.call then NotInstalled else s.after
  {
    if !s.ready || !s.status || c.Unknown? || Active(c) then Result(false, c)
    else if c.NotInstalled? then Result(s.remove, c)
    else if !s.call then Result(false, s.after)
    else Result(s.remove, NotInstalled)
  }

  // ---------------------------------------------------------------- lists of names

  function Pick(names: seq<string>, jobs: map<string, Controller>, p: Controller -> bool): (r: seq<string>)
    ensures forall n :: n in r <==> n in names && n in jobs && p(jobs[n])
    ensures NoRepeat(names) ==> NoRepeat(r)
  {
    if names == [] then []
    else
      assert forall n :: n in names <==> n == names[0] || n in names[1..];
      if names[0] in jobs && p(jobs[names[0]]) then [names[0]] + Pick(names[1..], jobs, p)
          else Pick(names[1..], jobs, p)
  }

  predicate NoRepeat(names: seq<string>) {
    names == [] || (names[0] !in names[1..] && NoRepeat(names[1..]))
  }

  /** new Set(names), as a list. */
  function Distinct(names: seq<string>): (r: seq<string>)
    ensures NoRepeat(r) && forall n :: n in r <==> n in names
  {
    if names == [] then []
    else
      assert forall n :: n in names <==> n == names[0] || n in names[1..];
      if names[0] in names[1..] then Distinct(names[1..]) else [names[0]] + Distinct(names[1..])
  }

  function InsertName(n: string, names: seq<string>): (r: seq<string>)
    ensures forall m :: m in r <==> m == n || m in names
    ensures NoRepeat(names) && n !in names ==> NoRepeat(r)
  {
    if names == [] || !Less(names[0], n) then [n] + names
    else
      assert forall m :: m in names <==> m == names[0] || m in names[1..];
      [names[0]] + InsertName(n, names[1..])
  }

  /** sort. */
  function SortNames(names: seq<string>): (r: seq<string>)
    ensures forall n :: n in r <==> n in names
    ensures NoRepeat(names) ==> NoRepeat(r)
  {
    if names == [] then []
    else
      assert forall n :: n in names <==> n == names[0] || n in names[1..];
      InsertName(names[0], SortNames(names[1..]))
  }

  /** The list names each Job once. */
  ghost predicate Lists(env: Env, jobs: map<string, Controller>) {
    NoRepeat(env.listing) && forall n :: n in env.listing <==> n in jobs
  }

  // ---------------------------------------------------------------- series

  /** eachSeries over start: it ends at the first failure. */
  function StartSeries(w: World, names: seq<string>, script: string -> Script): (World, bool)
    decreases names
  {
    if names == [] then (w, true)
    else
      var n := names[0];
      if n !in w.jobs then (w, false)
      else
        var r := StartJob(w.jobs[n], script(n));
        var next := w.(jobs := w.jobs[n := r.state], started := if r.ok then w.started + [n] else w.started);
        if r.ok then StartSeries(next, names[1..], script) else (next, false)
  }

  /** eachSeriesCollect over stopForPackage: the failures do not end it. */
  function StopSeries(jobs: map<string, Controller>, names: seq<string>, script: string -> Script)
    : (map<string, Controller>, seq<string>)
  {
    if names == [] then (jobs, [])
    else
      var n := names[0];
      if n !in jobs then
        var (after, failures) := StopSeries(jobs, names[1..], script);
        (after, [n] + failures)
      else
        var r := StopJob(jobs[n], script(n));
        var (after, failures) := StopSeries(jobs[n := r.state], names[1..], script);
        (after, (if r.ok then [] else [n]) + failures)
  }

  /** eachSeriesCollect over delete. */
  function DeleteSeries(w: World, names: seq<string>, script: string -> Script): (World, seq<string>)
    decreases names
  {
    if names == [] then (w, [])
    else
      var n := names[0];
      if n !in w.jobs then
        var (after, failures) := DeleteSeries(w, names[1..], script);
        (after, [n] + failures)
      else
        var r := DeleteJob(w.jobs[n], script(n));
        var next := if r.ok then w.(jobs := w.jobs - {n}, deleted := w.deleted + {n})
            else w.(jobs := w.jobs[n := r.state]);
        var (after, failures) := DeleteSeries(next, names[1..], script);
        (after, (if r.ok then [] else [n]) + failures)
  }

  // ---------------------------------------------------------------- package actions

  /** stop. */
  function StopPackage(w: World, env: Env): (World, bool) {
    if !env.session || !env.list then (w, false)
    else
      var restart := SortNames(Pick(env.listing, w.jobs, Active));
      var targets := SortNames(Pick(env.listing, w.jobs, Known));
      var unsafe := Pick(env.listing, w.jobs, c => !Known(c));
      if !env.locks || !env.write then (w, false)
      else
        var (after, failures) := StopSeries(w.jobs, targets, env.script);
        (w.(jobs := after, checkpoint := Names(SortNames(Distinct(restart)))),
         unsafe == [] && failures == [] && env.release)
  }

  /** The Jobs that start would start, or nothing where the checkpoint cannot be read. */
  function ToStart(w: World, env: Env): seq<string>
    requires !w.checkpoint.Unreadable?
  {
    if w.checkpoint.Missing? then SortNames(Pick(env.listing, w.jobs, Startable))
    else SortNames(Pick(w.checkpoint.names, w.jobs, Startable))
  }

  /** start. */
  function StartPackage(w: World, env: Env): (World, bool) {
    if !env.list || w.checkpoint.Unreadable? then (w, false)
    else
      var (after, ok) := StartSeries(w, ToStart(w, env), env.script);
      if ok && env.clear then (after.(checkpoint := Missing), true) else (after, false)
  }

  /** uninstall. */
  function UninstallPackage(w: World, env: Env): (World, bool) {
    if !env.session || !env.list || !env.locks then (w, false)
    else
      var running := SortNames(Pick(env.listing, w.jobs, Active));
      var (stopped, failures) := StopSeries(w.jobs, running, env.script);
      if failures != [] then (w.(jobs := stopped), false)
      else
        var (after, deleteFailures) := DeleteSeries(w.(jobs := stopped), SortNames(env.listing), env.script);
        if deleteFailures != [] || !env.clear then (after, false)
        else (after.(checkpoint := Missing), env.release)
  }

  // ---------------------------------------------------------------- what a series does

  predicate Same(a: map<string, Controller>, b: map<string, Controller>, n: string) {
    (n in a <==> n in b) && (n in a ==> a[n] == b[n])
  }

  /** Each name is stopped from the state it had, the others are left alone, and exactly the
      failures are reported. */
  lemma {:induction false} StopSeriesIs(jobs: map<string, Controller>, names: seq<string>, script: string -> Script)
    requires NoRepeat(names) && forall n <- names :: n in jobs
    ensures var (after, failures) := StopSeries(jobs, names, script);
      after.Keys == jobs.Keys
      && (forall n <- names :: after[n] == StopJob(jobs[n], script(n)).state)
      && (forall n :: n !in names ==> Same(jobs, after, n))
      && (forall n :: n in failures <==> n in names && !StopJob(jobs[n], script(n)).ok)
  {
    hide StopJob;
    if names == [] {
    } else {
      var n := names[0];
      var next := jobs[n := StopJob(jobs[n], script(n)).state];
      assert forall m :: m in names <==> m == n || m in names[1..];
      StopSeriesIs(next, names[1..], script);
    }
  }

  predicate Starts(jobs: map<string, Controller>, script: string -> Script, n: string)
    requires n in jobs
  {
    StartJob(jobs[n], script(n)).ok
  }

  /** The place of the first name whose start is refused, or the number of names. */
  function Refusal(names: seq<string>, jobs: map<string, Controller>, script: string -> Script): (k: nat)
    requires forall n <- names :: n in jobs
    ensures k <= |names| && forall i :: 0 <= i < k ==> Starts(jobs, script, names[i])
    ensures k < |names| ==> !Starts(jobs, script, names[k])
  {
    if names == [] || !Starts(jobs, script, names[0]) then 0 else 1 + Refusal(names[1..], jobs, script)
  }

  lemma {:induction false} SameRefusal(names: seq<string>, a: map<string, Controller>, b: map<string, Controller>,
                                       script: string -> Script)
    requires forall n <- names :: n in a && n in b && a[n] == b[n]
    ensures Refusal(names, a, script) == Refusal(names, b, script)
  {
    if names == [] {
    } else {
      SameRefusal(names[1..], a, b, script);
    }
  }

  /** Names are started one after the other up to the first that is refused, which ends the series;
      each that was tried has the state that its start leaves, every other Job the one it had. */
  lemma {:induction false} StartSeriesIs(w: World, names: seq<string>, script: string -> Script)
    requires NoRepeat(names) && forall n <- names :: n in w.jobs
    ensures var (after, ok) := StartSeries(w, names, script);
      var k := Refusal(names, w.jobs, script);
      after == w.(jobs := after.jobs, started := w.started + names[..k]) && (ok <==> k == |names|)
      && after.jobs.Keys == w.jobs.Keys
      && (forall n <- names[..Tried(names, k)] :: after.jobs[n] == StartJob(w.jobs[n], script(n)).state)
      && (forall n :: n !in names[..Tried(names, k)] ==> Same(w.jobs, after.jobs, n))
    decreases names
  {
    hide StartJob;
    if names == [] {
    } else {
      var n, rest := names[0], names[1..];
      var r := StartJob(w.jobs[n], script(n));
      assert forall m :: m in names <==> m == n || m in rest;
      if r.ok {
        var next := w.(jobs := w.jobs[n := r.state], started := w.started + [n]);
        StartSeriesIs(next, rest, script);
        SameRefusal(rest, w.jobs, next.jobs, script);
        var k := Refusal(rest, w.jobs, script);
        Prefix(names, k);
        Prefix(names, Tried(rest, k));
        Reassociate(w.started, n, rest[..k]);
        var (after, _) := StartSeries(next, rest, script);
        hide StartSeries, Refusal, NoRepeat;
        OneMoreTried(w.jobs, after.jobs, n, rest[..Tried(rest, k)], script);
      } else {
        assert names[..1] == [n] && names[..0] == [] && w.started + [] == w.started;
      }
    }
  }

  /** The states after a series whose first start went well, from those after the rest of it. */
  lemma OneMoreTried(jobs: map<string, Controller>, after: map<string, Controller>, n: string, rest: seq<string>,
                     script: string -> Script)
    requires n in jobs && n !in rest && (forall m <- rest :: m in jobs) && after.Keys == jobs.Keys
    requires forall m <- rest :: after[m] == StartJob(jobs[n := StartJob(jobs[n], script(n)).state][m], script(m)).state
    requires forall m :: m !in rest ==> Same(jobs[n := StartJob(jobs[n], script(n)).state], after, m)
    ensures forall m <- [n] + rest :: after[m] == StartJob(jobs[m], script(m)).state
    ensures forall m :: m !in [n] + rest ==> Same(jobs, after, m)
  {
    hide StartJob;
    assert Same(jobs[n := StartJob(jobs[n], script(n)).state], after, n);
  }

  /** How many names were tried: those that were started and the one that was refused. */
  function Tried(names: seq<string>, k: nat): (r: nat)
    requires k <= |names|
    ensures r <= |names|
  {
    if k < |names| then k + 1 else k
  }

  lemma Prefix(names: seq<string>, k: nat)
    requires names != [] && k < |names|
    ensures names[..k + 1] == [names[0]] + names[1..][..k]
  {
  }

  lemma {:induction false} DeleteSeriesIs(w: World, names: seq<string>, script: string -> Script)
    ensures var (after, failures) := DeleteSeries(w, names, script);
      after.checkpoint == w.checkpoint && after.started == w.started
      && (failures == [] ==>
            after.jobs.Keys == w.jobs.Keys - (set n <- names) && after.deleted == w.deleted + (set n <- names))
      && after.jobs.Keys <= w.jobs.Keys && after.deleted == w.deleted + (w.jobs.Keys - after.jobs.Keys)
    decreases names
  {
    hide DeleteJob;
    if names == [] {
    } else {
      var n := names[0];
      assert (set m <- names) == {n} + (set m <- names[1..]) by {
        assert forall m :: m in names <==> m == n || m in names[1..];
      }
      if n in w.jobs {
        var r := DeleteJob(w.jobs[n], script(n));
        DeleteSeriesIs(if r.ok then w.(jobs := w.jobs - {n}, deleted := w.deleted + {n})
            else w.(jobs := w.jobs[n := r.state]),
                       names[1..], script);
      } else {
        DeleteSeriesIs(w, names[1..], script);
      }
    }
  }

  // ---------------------------------------------------------------- stop

  /** After a successful stop no Job is active, and the checkpoint names exactly the Jobs that
      were, each once. A stop that fails after the checkpoint was written leaves the same one. */
  lemma StopCheckpoints(w: World, env: Env)
    requires Lists(env, w.jobs)
    ensures var (after, ok) := StopPackage(w, env);
      (ok ==> after.checkpoint.Names? && forall n <- after.jobs :: Idle(after.jobs[n]))
      && (after.checkpoint.Names? && after.checkpoint != w.checkpoint ==>
            NoRepeat(after.checkpoint.names)
            && forall n :: n in after.checkpoint.names <==> n in w.jobs && Active(w.jobs[n]))
      && (ok ==> NoRepeat(after.checkpoint.names)
                 && forall n :: n in after.checkpoint.names <==> n in w.jobs && Active(w.jobs[n]))
      && after.started == w.started && after.deleted == w.deleted && after.jobs.Keys == w.jobs.Keys
  {
    hide StopJob;
    if env.session && env.list && env.locks && env.write {
      var targets := SortNames(Pick(env.listing, w.jobs, Known));
      StopSeriesIs(w.jobs, targets, env.script);
      var (after, ok) := StopPackage(w, env);
      if ok {
        var unsafe := Pick(env.listing, w.jobs, c => !Known(c));
        forall n | n in after.jobs ensures Idle(after.jobs[n]) {
          assert n in env.listing;
          assert n !in unsafe;
          assert n in targets;
          var r := StopJob(w.jobs[n], env.script(n));
          assert r.ok;
        }
      }
    }
  }

  // ---------------------------------------------------------------- start, tried again

  /** One attempt: the Jobs as they are when it begins, and what it meets. */
  datatype Attempt = Attempt(jobs: map<string, Controller>, env: Env)

  function Try(w: World, a: Attempt): (World, bool) { StartPackage(w.(jobs := a.jobs), a.env) }

  /** Attempts one after the other, all but the last failing. */
  ghost predicate Tries(w: World, attempts: seq<Attempt>, worlds: seq<World>) {
    |worlds| == |attempts| + 1 && worlds[0] == w
    && (forall k :: 0 <= k < |attempts| ==> Lists(attempts[k].env, attempts[k].jobs))
    && (forall k :: 0 <= k < |attempts| ==> Ended(worlds[k], attempts[k], worlds[k + 1], k == |attempts| - 1))
  }

  predicate Ended(w: World, a: Attempt, after: World, last: bool) {
    Try(w, a).0 == after && (!last ==> !Try(w, a).1)
  }

  lemma {:induction false} NoRepeatPrefix(names: seq<string>, k: nat)
    requires NoRepeat(names) && k <= |names|
    ensures NoRepeat(names[..k]) && forall n <- names[..k] :: n in names
  {
    if k == 0 {
    } else {
      NoRepeatPrefix(names[1..], k - 1);
      assert names[..k] == [names[0]] + names[1..][..k - 1];
      assert forall m :: m in names <==> m == names[0] || m in names[1..];
    }
  }

  lemma {:induction false} NoRepeatJoin(a: seq<string>, b: seq<string>)
    ensures NoRepeat(a + b) <==> NoRepeat(a) && NoRepeat(b) && forall n <- a :: n !in b
  {
    if a == [] {
      assert a + b == b;
    } else {
      assert forall m :: m in a <==> m == a[0] || m in a[1..];
      NoRepeatJoin(a[1..], b);
      assert (a + b)[1..] == a[1..] + b;
    }
  }

  /** The Jobs that an attempt is going to start, as can be seen when it begins. */
  function WillStart(now: World, a: Attempt): seq<string> {
    if !a.env.list || now.checkpoint.Unreadable? then []
    else
      var names := ToStart(now.(jobs := a.jobs), a.env);
      names[..Refusal(names, a.jobs, a.env.script)]
  }

  /** No start is refused, nor the list, nor the removal of the checkpoint. */
  predicate WillSucceed(now: World, a: Attempt) {
    a.env.list && !now.checkpoint.Unreadable? && a.env.clear
    && WillStart(now, a) == ToStart(now.(jobs := a.jobs), a.env)
  }

  /** What an attempt does, from what it meets: it starts Jobs of the checkpoint that can be started,
      each once, up to the first that is refused, and all of them and only then removes the
      checkpoint if it succeeds. */
  lemma AttemptStarts(now: World, a: Attempt)
    requires now.checkpoint.Names? && NoRepeat(now.checkpoint.names)
    ensures var (after, ok) := Try(now, a);
      after.started == now.started + WillStart(now, a) && NoRepeat(WillStart(now, a))
      && (ok <==> WillSucceed(now, a))
      && (forall n <- WillStart(now, a) :: n in now.checkpoint.names && n in a.jobs && Startable(a.jobs[n])
                                           && n in after.jobs && Active(after.jobs[n]))
      && (ok ==> forall n <- now.checkpoint.names :: n in a.jobs && Startable(a.jobs[n]) ==> n in WillStart(now, a))
      && after.checkpoint == (if ok then Missing else now.checkpoint)
  {
    hide StartSeries, Startable, NoRepeat, StartJob;
    if a.env.list {
      var here := now.(jobs := a.jobs);
      var names := ToStart(here, a.env);
      var k := Refusal(names, a.jobs, a.env.script);
      StartSeriesIs(here, names, a.env.script);
      NoRepeatPrefix(names, k);
      if k == |names| { assert names[..k] == names; } else { assert |names[..k]| < |names|; }
      hide Refusal, Tried;
      StartedActive(names, a.jobs, StartSeries(here, names, a.env.script).0.jobs, a.env.script);
    } else {
      NothingRepeats(now.started);
    }
  }

  lemma StartedActive(names: seq<string>, jobs: map<string, Controller>, after: map<string, Controller>,
                      script: string -> Script)
    requires (forall n <- names :: n in jobs) && after.Keys == jobs.Keys
    requires var k := Refusal(names, jobs, script);
      forall n <- names[..Tried(names, k)] :: after[n] == StartJob(jobs[n], script(n)).state
    ensures forall n <- names[..Refusal(names, jobs, script)] :: n in after && Active(after[n])
  {
    var k := Refusal(names, jobs, script);
    forall n | n in names[..k] ensures n in after && Active(after[n]) {
      var i :| 0 <= i < k && names[i] == n;
      assert names[..Tried(names, k)][i] == n && Starts(jobs, script, names[i]);
    }
  }

  lemma NothingRepeats(names: seq<string>)
    ensures names[|names|..] == [] && NoRepeat([])
  {
  }

  /** What the attempts have done so far. */
  predicate Progress(w: World, now: World) {
    w.checkpoint.Names? && w.started <= now.started
    && forall n <- now.started[|w.started|..] :: n in w.checkpoint.names
  }

  /** Every named Job that can be started is started in between, and is active. */
  predicate StartedAll(names: seq<string>, jobs: map<string, Controller>, now: World, after: World) {
    |now.started| <= |after.started|
    && forall n <- names :: n in jobs && Startable(jobs[n]) ==>
         n in after.started[|now.started|..] && n in after.jobs && Active(after.jobs[n])
  }

  /** Retrying start until it succeeds: the checkpoint survives every attempt that fails and is
      gone after the one that does not, which starts every Job of the checkpoint that can be
      started by then; no attempt starts any other Job. */
  lemma {:induction false} RetryStarts(w: World, attempts: seq<Attempt>, worlds: seq<World>, k: nat)
    requires w.checkpoint.Names? && NoRepeat(w.checkpoint.names)
    requires Tries(w, attempts, worlds) && k <= |attempts|
    ensures Progress(w, worlds[k])
    ensures k < |attempts| ==> worlds[k].checkpoint == w.checkpoint
    ensures 0 < k == |attempts| && Try(worlds[k - 1], attempts[k - 1]).1 ==>
              worlds[k].checkpoint == Missing
              && StartedAll(w.checkpoint.names, attempts[k - 1].jobs, worlds[k - 1], worlds[k])
  {
    hide Try, NoRepeat;
    if k == 0 {
      assert w.started[|w.started|..] == [];
    } else {
      RetryStarts(w, attempts, worlds, k - 1);
      assert Ended(worlds[k - 1], attempts[k - 1], worlds[k], k - 1 == |attempts| - 1);
      AttemptStarts(worlds[k - 1], attempts[k - 1]);
      hide WillStart, WillSucceed;
      Appended(w.started, worlds[k - 1].started, WillStart(worlds[k - 1], attempts[k - 1]));
    }
  }

  lemma Appended(first: seq<string>, before: seq<string>, more: seq<string>)
    requires first <= before
    ensures first <= before + more && (before + more)[|before|..] == more
    ensures (before + more)[|first|..] == before[|first|..] + more
  {
  }

  /** The attempt is not going to start a Job that was started since a given moment. */
  predicate Fresh(now: World, a: Attempt, from: nat) {
    from <= |now.started| && forall n <- WillStart(now, a) :: n !in now.started[from..]
  }

  /** No Job is started twice if and only if no attempt, when it begins, has before its first refusal
      a Job that an earlier attempt has started. */
  lemma {:induction false} OnceExactlyWhen(w: World, attempts: seq<Attempt>, worlds: seq<World>, k: nat)
    requires w.checkpoint.Names? && NoRepeat(w.checkpoint.names)
    requires Tries(w, attempts, worlds) && k <= |attempts|
    ensures w.started <= worlds[k].started
    ensures NoRepeat(worlds[k].started[|w.started|..])
            <==> forall i :: 0 <= i < k ==> Fresh(worlds[i], attempts[i], |w.started|)
  {
    var from := |w.started|;
    RetryStarts(w, attempts, worlds, k);
    if k == 0 {
      NothingRepeats(w.started);
    } else {
      OnceExactlyWhen(w, attempts, worlds, k - 1);
      RetryStarts(w, attempts, worlds, k - 1);
      OneMore(w, worlds[k - 1], attempts[k - 1]);
      assert Ended(worlds[k - 1], attempts[k - 1], worlds[k], k - 1 == |attempts| - 1);
      hide Try, NoRepeat, Fresh, WillStart;
      assert (forall i :: 0 <= i < k ==> Fresh(worlds[i], attempts[i], from))
        <==> ((forall i :: 0 <= i < k - 1 ==> Fresh(worlds[i], attempts[i], from))
              && Fresh(worlds[k - 1], attempts[k - 1], from));
    }
  }

  /** For one attempt. */
  lemma OneMore(w: World, now: World, a: Attempt)
    requires now.checkpoint == w.checkpoint && Progress(w, now) && NoRepeat(w.checkpoint.names)
    ensures now.started <= Try(now, a).0.started
    ensures NoRepeat(Try(now, a).0.started[|w.started|..])
            <==> NoRepeat(now.started[|w.started|..]) && Fresh(now, a, |w.started|)
  {
    AttemptStarts(now, a);
    hide Try, NoRepeat, WillStart, WillSucceed;
    Appended(w.started, now.started, WillStart(now, a));
    NoRepeatJoin(now.started[|w.started|..], WillStart(now, a));
    Symmetric(now.started[|w.started|..], WillStart(now, a));
  }

  lemma Symmetric(a: seq<string>, b: seq<string>)
    ensures (forall n <- a :: n !in b) <==> (forall n <- b :: n !in a)
  {
  }

  /** The start of a name is refused, or of one before it. */
  predicate RefusedBy(names: seq<string>, i: nat, jobs: map<string, Controller>, script: string -> Script)
    requires i < |names| && forall n <- names :: n in jobs
  {
    exists j :: 0 <= j <= i && !Starts(jobs, script, names[j])
  }

  /** For every attempt that can list the Jobs: it starts none again exactly if each Job of its list
      that was started earlier stands behind or at a Job whose start is refused; for one that
      succeeds, exactly if no Job started earlier can be started when it begins. */
  lemma FreshExactlyWhen(w: World, now: World, a: Attempt)
    requires now.checkpoint == w.checkpoint && Progress(w, now) && NoRepeat(w.checkpoint.names) && a.env.list
    ensures var names := ToStart(now.(jobs := a.jobs), a.env);
      Fresh(now, a, |w.started|)
      <==> forall i :: 0 <= i < |names| && names[i] in now.started[|w.started|..] ==>
             RefusedBy(names, i, a.jobs, a.env.script)
    ensures WillSucceed(now, a) ==> (Fresh(now, a, |w.started|) <==> NoneStartable(now.started[|w.started|..], a.jobs))
  {
    hide Startable, StartJob, NoRepeat;
    var names := ToStart(now.(jobs := a.jobs), a.env);
    var k := Refusal(names, a.jobs, a.env.script);
    var earlier := now.started[|w.started|..];
    forall i | 0 <= i < |names| ensures i >= k <==> RefusedBy(names, i, a.jobs, a.env.script) {
      if i >= k { assert !Starts(a.jobs, a.env.script, names[k]); }
    }
    forall n ensures n in WillStart(now, a) <==> exists i :: 0 <= i < k && names[i] == n {
      if n in names[..k] {
        var i :| 0 <= i < k && names[..k][i] == n;
        assert names[i] == n;
      }
      if i :| 0 <= i < k && names[i] == n { assert names[..k][i] == n; }
    }
  }

  predicate NoneStartable(names: seq<string>, jobs: map<string, Controller>) {
    forall n <- names :: n in jobs ==> !Startable(jobs[n])
  }

  /** From one successful stop to the first successful start: what is started are Jobs that were
      active at the stop, among them all that can be started at the end, and none twice exactly if
      no attempt has, when it begins, a Job of an earlier attempt before its first refusal. */
  lemma StopThenStart(w: World, env: Env, attempts: seq<Attempt>, worlds: seq<World>)
    requires Lists(env, w.jobs) && StopPackage(w, env).1
    requires attempts != [] && Tries(StopPackage(w, env).0, attempts, worlds)
    requires Try(worlds[|attempts| - 1], attempts[|attempts| - 1]).1
    ensures var last := attempts[|attempts| - 1].jobs;
      worlds[|attempts|].checkpoint == Missing && w.started <= worlds[|attempts|].started
      && (var more := worlds[|attempts|].started[|w.started|..];
          && (forall n <- more :: n in w.jobs && Active(w.jobs[n]))
          && (forall n <- w.jobs :: Active(w.jobs[n]) && n in last && Startable(last[n]) ==> n in more)
          && (NoRepeat(more) <==> forall i :: 0 <= i < |attempts| ==> Fresh(worlds[i], attempts[i], |w.started|)))
  {
    var k := |attempts|;
    StopCheckpoints(w, env);
    hide Try, StopPackage, NoRepeat, Tries, Lists, Fresh, Startable, Active, WillStart;
    RetryStarts(StopPackage(w, env).0, attempts, worlds, k);
    RetryStarts(StopPackage(w, env).0, attempts, worlds, k - 1);
    OnceExactlyWhen(StopPackage(w, env).0, attempts, worlds, k);
    LaterPart(StopPackage(w, env).0, attempts, worlds, k);
  }

  lemma LaterPart(w: World, attempts: seq<Attempt>, worlds: seq<World>, k: nat)
    requires w.checkpoint.Names? && NoRepeat(w.checkpoint.names) && Tries(w, attempts, worlds) && 0 < k <= |attempts|
    ensures |w.started| <= |worlds[k - 1].started| <= |worlds[k].started|
    ensures forall n <- worlds[k].started[|worlds[k - 1].started|..] :: n in worlds[k].started[|w.started|..]
  {
    hide Try, NoRepeat;
    RetryStarts(w, attempts, worlds, k - 1);
    assert Ended(worlds[k - 1], attempts[k - 1], worlds[k], k - 1 == |attempts| - 1);
    AttemptStarts(worlds[k - 1], attempts[k - 1]);
    hide WillStart, WillSucceed;
    Appended(w.started, worlds[k - 1].started, WillStart(worlds[k - 1], attempts[k - 1]));
  }

  /** A run in which a Job is started twice: the first attempt starts it and fails at the next one,
      both fail, and the second attempt starts both. */
  lemma StartedTwice() returns (w: World, attempts: seq<Attempt>, worlds: seq<World>)
    ensures Tries(w, attempts, worlds) && w.checkpoint == Names(["a", "b"]) && w.started == []
    ensures |attempts| == 2 && Try(worlds[1], attempts[1]).1 && worlds[2].started == ["a", "a", "b"]
  {
    var good := Script(true, true, true, Stopped, true, true, Running, true, true);
    var bad := good.(database := false);
    var first := Env(true, true, ["a", "b"], true, true, true, true, n => if n == "b" then bad else good);
    var second := first.(script := n => good);
    w := World(map[], Names(["a", "b"]), [], {});
    attempts := [Attempt(map["a" := Stopped, "b" := Stopped], first),
        Attempt(map["a" := Failed, "b" := Failed], second)];
    var middle := Try(w, attempts[0]).0;
    worlds := [w, middle, Try(middle, attempts[1]).0];
    InOrder(attempts[0].jobs);
    InOrder(attempts[1].jobs);
    FirstAttempt(w, attempts[0]);
    SecondAttempt(middle, attempts[1]);
    hide Try;
  }

  lemma InOrder(jobs: map<string, Controller>)
    requires jobs.Keys == {"a", "b"} && Startable(jobs["a"]) && Startable(jobs["b"])
    ensures SortNames(Pick(["a", "b"], jobs, Startable)) == ["a", "b"]
    ensures NoRepeat(["a", "b"])
  {
    assert ["a", "b"][1..] == ["b"] && ["b"][1..] == [];
    assert Pick(["b"], jobs, Startable) == ["b"];
    assert Pick(["a", "b"], jobs, Startable) == ["a", "b"];
    assert SortNames(["b"]) == ["b"];
    assert !Less("b", "a");
  }

  lemma FirstAttempt(w: World, a: Attempt)
    requires w.checkpoint == Names(["a", "b"]) && w.started == [] && a.env.list
    requires a.jobs == map["a" := Stopped, "b" := Stopped]
    requires StartJob(Stopped, a.env.script("a")).ok && !StartJob(Stopped, a.env.script("b")).ok
    ensures !Try(w, a).1 && Try(w, a).0.started == ["a"] && Try(w, a).0.checkpoint == w.checkpoint
  {
    hide StartJob;
    InOrder(a.jobs);
    assert ["a", "b"][1..] == ["b"];
  }

  lemma SecondAttempt(w: World, a: Attempt)
    requires w.checkpoint == Names(["a", "b"]) && w.started == ["a"] && a.env.list && a.env.clear
    requires a.jobs == map["a" := Failed, "b" := Failed]
    requires StartJob(Failed, a.env.script("a")).ok && StartJob(Failed, a.env.script("b")).ok
    ensures Try(w, a).1 && Try(w, a).0.started == ["a", "a", "b"]
  {
    hide StartJob;
    InOrder(a.jobs);
    assert ["a", "b"][1..] == ["b"] && ["b"][1..] == [];
  }

  /** A stop that is tried again until it succeeds: in the end the checkpoint has exactly the Jobs
      that the first attempt left active. So it has lost none of those that were active at first
      if and only if the first attempt left every one of them active. */
  lemma StopAgainKeeps(w: World, env: Env, again: Env)
    requires Lists(env, w.jobs) && Lists(again, StopPackage(w, env).0.jobs)
    requires env.session && env.list && env.locks && env.write
    requires StopPackage(StopPackage(w, env).0, again).1
    ensures var last := StopPackage(StopPackage(w, env).0, again).0;
      last.checkpoint.Names?
      && (forall n <- w.jobs :: Active(w.jobs[n]) ==>
            (n in last.checkpoint.names <==> Active(StopJob(w.jobs[n], env.script(n)).state)))
      && ((forall n <- w.jobs :: Active(w.jobs[n]) ==> n in last.checkpoint.names)
          <==> forall n <- w.jobs :: Active(w.jobs[n]) ==> Active(StopJob(w.jobs[n], env.script(n)).state))
  {
    hide StopJob, StopPackage, NoRepeat, Lists;
    var middle := StopPackage(w, env).0;
    StopCheckpoints(middle, again);
    var last := StopPackage(middle, again).0;
    forall n | n in w.jobs && Active(w.jobs[n])
      ensures n in last.checkpoint.names <==> Active(StopJob(w.jobs[n], env.script(n)).state)
    {
      StopOne(w, env, n);
    }
  }

  /** Such a stop: it stops one Job and fails at another, and the one it stopped is forgotten. */
  lemma StopAgainForgets(job: string, other: string, w: World, env: Env, again: Env)
    requires job != other && w.jobs == map[job := Running, other := Running]
    requires Lists(env, w.jobs)
    requires StopJob(Running, env.script(job)).ok && StopJob(Running, env.script(other)) == Result(false, Running)
    requires env.session && env.list && env.locks && env.write
    requires Lists(again, StopPackage(w, env).0.jobs) && StopPackage(StopPackage(w, env).0, again).1
    ensures !StopPackage(w, env).1 && job in StopPackage(w, env).0.checkpoint.names
    ensures var last := StopPackage(StopPackage(w, env).0, again).0;
      last.checkpoint.Names? && job !in last.checkpoint.names && other in last.checkpoint.names
  {
    hide StopJob, StopPackage, NoRepeat, Lists;
    StopOne(w, env, job);
    StopOne(w, env, other);
    StopAgainKeeps(w, env, again);
    StoppedIsIdle(env.script(job));
  }

  lemma StoppedIsIdle(s: Script)
    ensures StopJob(Running, s).ok ==> !Active(StopJob(Running, s).state)
  {
  }

  /** What a stop that gets to the Jobs does to one of them. */
  lemma StopOne(w: World, env: Env, n: string)
    requires Lists(env, w.jobs) && n in w.jobs && Known(w.jobs[n])
    requires env.session && env.list && env.locks && env.write
    ensures var (after, ok) := StopPackage(w, env);
      n in after.jobs && after.jobs[n] == StopJob(w.jobs[n], env.script(n)).state
      && (!StopJob(w.jobs[n], env.script(n)).ok ==> !ok) && after.checkpoint.Names?
      && (Active(w.jobs[n]) ==> n in after.checkpoint.names)
  {
    hide StopJob, StopSeries;
    var targets := SortNames(Pick(env.listing, w.jobs, Known));
    StopSeriesIs(w.jobs, targets, env.script);
    assert n in env.listing;
    assert n in targets;
  }

  // ---------------------------------------------------------------- uninstall

  /** Uninstall deletes nothing unless it stopped every Job that was active; where it succeeds
      all Jobs and the checkpoint are gone, and where it fails the checkpoint is as it was. */
  lemma UninstallIsSafe(w: World, env: Env)
    requires Lists(env, w.jobs)
    ensures var (after, ok) := UninstallPackage(w, env);
      (after.jobs.Keys != w.jobs.Keys ==>
         forall n <- w.jobs :: Active(w.jobs[n]) ==> StopJob(w.jobs[n], env.script(n)).ok)
      && (ok ==> after.jobs == map[] && after.checkpoint == Missing && after.deleted == w.deleted + w.jobs.Keys)
      && after.jobs.Keys <= w.jobs.Keys && after.deleted == w.deleted + (w.jobs.Keys - after.jobs.Keys)
      && (after.checkpoint == w.checkpoint || (after.checkpoint == Missing && after.jobs == map[]))
      && after.started == w.started
  {
    hide StopJob, DeleteJob, StopSeries, DeleteSeries;
    if env.session && env.list && env.locks {
      var running := SortNames(Pick(env.listing, w.jobs, Active));
      StopSeriesIs(w.jobs, running, env.script);
      var (stopped, failures) := StopSeries(w.jobs, running, env.script);
      if failures == [] {
        forall n | n in w.jobs && Active(w.jobs[n]) ensures StopJob(w.jobs[n], env.script(n)).ok {
          assert n in env.listing;
          assert n in running;
          assert n !in failures;
        }
        var names := SortNames(env.listing);
        DeleteSeriesIs(w.(jobs := stopped), names, env.script);
        assert (set n <- names) == w.jobs.Keys;
      }
    }
  }

  // ---------------------------------------------------------------- the actions themselves

  lemma Reassociate(a: seq<string>, n: string, b: seq<string>)
    ensures a + [n] + b == a + ([n] + b) && a + b == a + ([] + b)
  {
  }

  /** createLifecycle: the actions change the Jobs, the checkpoint file and nothing else. */
  class Package {
    var jobs: map<string, Controller>
    var checkpoint: File
    var started: seq<string>
    var deleted: set<string>

    function Now(): World
      reads this
    {
      World(jobs, checkpoint, started, deleted)
    }

    constructor (jobs: map<string, Controller>)
      ensures Now() == World(jobs, Missing, [], {})
    {
      this.jobs, checkpoint, started, deleted := jobs, Missing, [], {};
    }

    method StopEach(names: seq<string>, script: string -> Script) returns (failures: seq<string>)
      modifies this`jobs
      ensures (jobs, failures) == StopSeries(old(jobs), names, script)
    {
      failures := [];
      var index := 0;
      assert names[0..] == names;
      while index < |names|
        invariant index <= |names|
        invariant StopSeries(old(jobs), names, script).0 == StopSeries(jobs, names[index..], script).0
        invariant StopSeries(old(jobs), names, script).1 == failures + StopSeries(jobs, names[index..], script).1
      {
        var n := names[index];
        assert names[index..][1..] == names[index + 1..];
        ghost var before := failures;
        if n in jobs {
          var r := StopJob(jobs[n], script(n));
          jobs := jobs[n := r.state];
          if !r.ok { failures := failures + [n]; }
        } else {
          failures := failures + [n];
        }
        index := index + 1;
        Reassociate(before, n, StopSeries(jobs, names[index..], script).1);
      }
      assert names[index..] == [] && failures + [] == failures;
    }

    method StartEach(names: seq<string>, script: string -> Script) returns (ok: bool)
      modifies this`jobs, this`started
      ensures (Now(), ok) == StartSeries(old(Now()), names, script)
    {
      var index := 0;
      while index < |names|
        invariant index <= |names|
        invariant StartSeries(old(Now()), names, script) == StartSeries(Now(), names[index..], script)
        invariant checkpoint == old(checkpoint) && deleted == old(deleted)
      {
        var n := names[index];
        assert names[index..][1..] == names[index + 1..];
        if n !in jobs { return false; }
        var r := StartJob(jobs[n], script(n));
        jobs := jobs[n := r.state];
        if !r.ok { return false; }
        started := started + [n];
        index := index + 1;
      }
      return true;
    }

    method DeleteEach(names: seq<string>, script: string -> Script) returns (failures: seq<string>)
      modifies this`jobs, this`deleted
      ensures (Now(), failures) == DeleteSeries(old(Now()), names, script)
    {
      failures := [];
      var index := 0;
      assert names[0..] == names;
      while index < |names|
        invariant index <= |names|
        invariant checkpoint == old(checkpoint) && started == old(started)
        invariant DeleteSeries(old(Now()), names, script).0 == DeleteSeries(Now(), names[index..], script).0
        invariant DeleteSeries(old(Now()), names, script).1 == failures + DeleteSeries(Now(), names[index..], script).1
      {
        var n := names[index];
        assert names[index..][1..] == names[index + 1..];
        ghost var before := failures;
        if n in jobs {
          var r := DeleteJob(jobs[n], script(n));
          if r.ok {
            jobs := jobs - {n};
            deleted := deleted + {n};
          } else {
            jobs := jobs[n := r.state];
            failures := failures + [n];
          }
        } else {
          failures := failures + [n];
        }
        index := index + 1;
        Reassociate(before, n, DeleteSeries(Now(), names[index..], script).1);
      }
      assert names[index..] == [] && failures + [] == failures;
    }

    method Stop(env: Env) returns (ok: bool)
      modifies this
      ensures (Now(), ok) == StopPackage(old(Now()), env)
    {
      if !env.session || !env.list { return false; }
      var restart := SortNames(Pick(env.listing, jobs, Active));
      var targets := SortNames(Pick(env.listing, jobs, Known));
      var unsafe := Pick(env.listing, jobs, c => !Known(c));
      if !env.locks || !env.write { return false; }
      checkpoint := Names(SortNames(Distinct(restart)));
      var failures := StopEach(targets, env.script);
      return unsafe == [] && failures == [] && env.release;
    }

    method Start(env: Env) returns (ok: bool)
      modifies this
      ensures (Now(), ok) == StartPackage(old(Now()), env)
    {
      if !env.list || checkpoint.Unreadable? { return false; }
      ok := StartEach(ToStart(Now(), env), env.script);
      if ok {
        if !env.clear { return false; }
        checkpoint := Missing;
      }
    }

    method Uninstall(env: Env) returns (ok: bool)
      modifies this
      ensures (Now(), ok) == UninstallPackage(old(Now()), env)
    {
      if !env.session || !env.list || !env.locks { return false; }
      var failures := StopEach(SortNames(Pick(env.listing, jobs, Active)), env.script);
      if failures != [] { return false; }
      failures := DeleteEach(SortNames(env.listing), env.script);
      if failures != [] || !env.clear { return false; }
      checkpoint := Missing;
      return env.release;
    }
  }
}
