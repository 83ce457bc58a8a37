/** When the package actions succeed, in terms of the single Jobs: exactly when each of them can be
    stopped, started or deleted, and the files and locks are in order. */
module LifecycleOutcome {
  import opened Text
  import opened Lifecycle

  // ---------------------------------------------------------------- order

  predicate InOrder(names: seq<string>) { forall i, j :: 0 <= i < j < |names| ==> !Less(names[j], names[i]) }

  lemma {:induction false} InsertInOrder(n: string, names: seq<string>)
    requires InOrder(names)
    ensures InOrder(InsertName(n, names))
  {
    hide Less;
    if names == [] {
    } else if !Less(names[0], n) {
      forall j | 0 <= j < |names| ensures !Less(names[j], n) {
        LessTotal(names[0], names[j]);
        LessTotal(names[j], n);
        if Less(names[j], n) && Less(names[0], names[j]) { LessTransitive(names[0], names[j], n); }
      }
    } else {
      var rest := InsertName(n, names[1..]);
      InsertInOrder(n, names[1..]);
      forall j | 0 <= j < |rest| ensures !Less(rest[j], names[0]) {
        assert rest[j] in rest;
        LessTotal(names[0], n);
        if rest[j] != n {
          var k :| 0 <= k < |names[1..]| && names[1..][k] == rest[j];
          assert names[k + 1] == rest[j];
        }
      }
    }
  }

  /** Names are taken in ascending order of their code units. */
  lemma {:induction false} SortInOrder(names: seq<string>)
    ensures InOrder(SortNames(names))
  {
    if names == [] {
    } else {
      SortInOrder(names[1..]);
      InsertInOrder(names[0], SortNames(names[1..]));
    }
  }

  // ---------------------------------------------------------------- start

  /** A Job that start is for: one that can be started, of the checkpoint if there is one. */
  predicate Chosen(now: World, a: Attempt, n: string) {
    n in a.jobs && Startable(a.jobs[n]) && (now.checkpoint.Names? ==> n in now.checkpoint.names)
  }

  /** The Jobs that start is for, each once and in order. */
  lemma ToStartIs(now: World, a: Attempt)
    requires Lists(a.env, a.jobs) && !now.checkpoint.Unreadable?
    requires now.checkpoint.Names? ==> NoRepeat(now.checkpoint.names)
    ensures var names := ToStart(now.(jobs := a.jobs), a.env);
      NoRepeat(names) && InOrder(names) && forall n :: n in names <==> Chosen(now, a, n)
  {
    hide NoRepeat, InOrder;
    var from := if now.checkpoint.Missing? then a.env.listing else now.checkpoint.names;
    SortInOrder(Pick(from, a.jobs, Startable));
  }

  /** A start succeeds exactly if the Jobs can be listed, the checkpoint read and removed, and no Job that
      it is for is refused. */
  lemma StartSucceedsExactlyWhen(now: World, a: Attempt)
    requires Lists(a.env, a.jobs) && (now.checkpoint.Names? ==> NoRepeat(now.checkpoint.names))
    ensures Try(now, a).1
            <==> a.env.list && a.env.clear && !now.checkpoint.Unreadable?
                 && forall n | n in a.jobs && Chosen(now, a, n) :: StartJob(a.jobs[n], a.env.script(n)).ok
  {
    hide StartSeries, StartJob, NoRepeat, Lists, Chosen;
    if a.env.list && !now.checkpoint.Unreadable? {
      ToStartIs(now, a);
      var names := ToStart(now.(jobs := a.jobs), a.env);
      AllInJobs(now, a, names);
      StartSeriesIs(now.(jobs := a.jobs), names, a.env.script);
      var k := Refusal(names, a.jobs, a.env.script);
      if k == |names| {
        forall n | n in names ensures StartJob(a.jobs[n], a.env.script(n)).ok {
          var i :| 0 <= i < |names| && names[i] == n;
          assert Starts(a.jobs, a.env.script, names[i]);
        }
      } else {
        assert names[k] in names && !Starts(a.jobs, a.env.script, names[k]);
      }
    }
  }

  lemma AllInJobs(now: World, a: Attempt, names: seq<string>)
    requires forall n :: n in names <==> Chosen(now, a, n)
    ensures forall n <- names :: n in a.jobs
  {
  }

  /** Without a checkpoint a start is for every Job that can be started: in order and up to the first that
      is refused they are started, each once, all of them where it succeeds; no other Job is touched. */
  lemma StartWithoutCheckpoint(now: World, a: Attempt)
    requires now.checkpoint.Missing? && Lists(a.env, a.jobs)
    ensures var (after, ok) := Try(now, a);
      && after.started == now.started + WillStart(now, a) && NoRepeat(WillStart(now, a)) && InOrder(WillStart(now, a))
      && (forall n <- WillStart(now, a) :: n in a.jobs && Startable(a.jobs[n]) && n in after.jobs
                                           && Active(after.jobs[n]))
      && (ok ==> forall n <- a.jobs :: Startable(a.jobs[n]) ==> n in WillStart(now, a))
      && (forall n <- a.jobs :: !Startable(a.jobs[n]) ==> n in after.jobs && after.jobs[n] == a.jobs[n])
      && after.checkpoint.Missing? && after.jobs.Keys == a.jobs.Keys
  {
    hide StartSeries, StartJob, NoRepeat, Lists, Startable, Active, InOrder;
    if a.env.list {
      ToStartIs(now, a);
      var names := ToStart(now.(jobs := a.jobs), a.env);
      AllInJobs(now, a, names);
      StartSeriesIs(now.(jobs := a.jobs), names, a.env.script);
      var k := Refusal(names, a.jobs, a.env.script);
      NoRepeatPrefix(names, k);
      PrefixInOrder(names, k);
      if k == |names| { assert names[..k] == names; }
      Untouched(now, a, names, k);
      StartedActive(names, a.jobs, StartSeries(now.(jobs := a.jobs), names, a.env.script).0.jobs, a.env.script);
    } else {
      NothingRepeats(now.started);
      NothingInOrder();
    }
  }

  lemma NothingInOrder()
    ensures InOrder([])
  {
  }

  lemma PrefixInOrder(names: seq<string>, k: nat)
    requires InOrder(names) && k <= |names|
    ensures InOrder(names[..k])
  {
  }

  lemma Untouched(now: World, a: Attempt, names: seq<string>, k: nat)
    requires (forall n :: n in names <==> Chosen(now, a, n)) && k <= |names|
    ensures forall n :: n in a.jobs && !Startable(a.jobs[n]) ==> n !in names[..Tried(names, k)]
  {
    assert forall n :: n in names[..Tried(names, k)] ==> n in names;
  }

  // ---------------------------------------------------------------- stop

  /** A stop succeeds exactly if the session, the list, the locks, the checkpoint and the release are in order
      and every Job is known and can be stopped where it is active. */
  lemma StopSucceedsExactlyWhen(w: World, env: Env)
    requires Lists(env, w.jobs)
    ensures StopPackage(w, env).1
            <==> env.session && env.list && env.locks && env.write && env.release
                 && forall n | n in w.jobs :: Known(w.jobs[n]) && StopJob(w.jobs[n], env.script(n)).ok
  {
    hide StopSeries, StopJob, Known;
    if env.session && env.list && env.locks && env.write {
      var targets := SortNames(Pick(env.listing, w.jobs, Known));
      var unsafe := Pick(env.listing, w.jobs, c => !Known(c));
      StopSeriesIs(w.jobs, targets, env.script);
      var (_, failures) := StopSeries(w.jobs, targets, env.script);
      forall n | n in w.jobs ensures n in unsafe || n in targets {
        assert n in env.listing;
      }
      if unsafe == [] && failures == [] {
        forall n | n in w.jobs ensures Known(w.jobs[n]) && StopJob(w.jobs[n], env.script(n)).ok {
          assert n in targets;
        }
      } else if unsafe != [] {
        assert unsafe[0] in unsafe;
      } else {
        assert failures[0] in failures;
      }
    }
  }

  // ---------------------------------------------------------------- uninstall

  /** Each name is deleted from the state it had; those whose deletion fails stay, in the state that leaves,
      and are reported. */
  lemma {:induction false} DeletesEach(w: World, names: seq<string>, script: string -> Script)
    requires NoRepeat(names) && forall n <- names :: n in w.jobs
    ensures var (after, failures) := DeleteSeries(w, names, script);
      && (forall n <- names :: n in after.jobs <==> !DeleteJob(w.jobs[n], script(n)).ok)
      && (forall n <- names :: n in after.jobs ==> after.jobs[n] == DeleteJob(w.jobs[n], script(n)).state)
      && (forall n :: n !in names ==> Same(w.jobs, after.jobs, n))
      && (forall n :: n in failures <==> n in names && !DeleteJob(w.jobs[n], script(n)).ok)
    decreases names
  {
    hide DeleteJob;
    if names == [] {
    } else {
      var n := names[0];
      var r := DeleteJob(w.jobs[n], script(n));
      var next := if r.ok then w.(jobs := w.jobs - {n}, deleted := w.deleted + {n})
                  else w.(jobs := w.jobs[n := r.state]);
      assert forall m :: m in names <==> m == n || m in names[1..];
      assert forall m <- names[1..] :: m != n && next.jobs[m] == w.jobs[m];
      DeletesEach(next, names[1..], script);
      var (after, _) := DeleteSeries(next, names[1..], script);
      assert Same(next.jobs, after.jobs, n);
    }
  }

  /** The state in which uninstall finds a Job when it comes to delete it. */
  function Found(jobs: map<string, Controller>, env: Env, n: string): Controller
    requires n in jobs
  {
    if Active(jobs[n]) then StopJob(jobs[n], env.script(n)).state else jobs[n]
  }

  /** An uninstall succeeds exactly if the session, the list, the locks, the checkpoint and the release are in
      order, every active Job can be stopped, and every Job can be deleted then. */
  lemma UninstallSucceedsExactlyWhen(w: World, env: Env)
    requires Lists(env, w.jobs)
    ensures UninstallPackage(w, env).1
            <==> env.session && env.list && env.locks && env.clear && env.release
                 && forall n | n in w.jobs ::
                      (Active(w.jobs[n]) ==> StopJob(w.jobs[n], env.script(n)).ok)
                      && DeleteJob(Found(w.jobs, env, n), env.script(n)).ok
  {
    hide StopSeries, StopJob, DeleteSeries, DeleteJob, Active;
    if env.session && env.list && env.locks {
      var running := SortNames(Pick(env.listing, w.jobs, Active));
      StopSeriesIs(w.jobs, running, env.script);
      var (stopped, failures) := StopSeries(w.jobs, running, env.script);
      forall n | n in w.jobs ensures n in env.listing && (n in running <==> Active(w.jobs[n])) {
        assert n in env.listing <==> n in w.jobs;
      }
      if failures == [] {
        var names := SortNames(env.listing);
        forall n | n in w.jobs ensures n in names && n in stopped && stopped[n] == Found(w.jobs, env, n) {
          assert n in env.listing && (Same(w.jobs, stopped, n) || n in running);
        }
        DeletesEach(w.(jobs := stopped), names, env.script);
        var (_, undeleted) := DeleteSeries(w.(jobs := stopped), names, env.script);
        if undeleted != [] { assert undeleted[0] in undeleted; }
      } else {
        assert failures[0] in failures;
      }
    }
  }
}
