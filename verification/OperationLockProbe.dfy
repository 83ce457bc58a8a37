/** assertAvailable, on which the fences of Jobs and Interfaces rest: several file operations that
    judge as if they were one. It passes only if at some moment while it ran nobody had the lock. */
module OperationLockProbe {
  import opened Options
  import opened OperationLock
  import opened OperationLockProof

  ghost predicate Unheld(s: State) {
    forall p: nat :: s.Alive(p) ==> !Holds(s.procs[p].pc)
  }

  /** Where somebody has the lock, the lock file is complete and the holder's own. */
  lemma HolderIsAuthor(c: Config, s: State)
    requires Inv(c, s) && !Unheld(s)
    ensures HeldLive(s) && s.lock.value.owner.Some? && s.lock.value.owner.value.token.pid == s.lock.value.author
  {
    var p: nat :| s.Alive(p) && Holds(s.procs[p].pc);
    assert s.procs[p].alive && LockOk(s, p) && GuardOk(c, s, p);
  }

  // ---------------------------------------------------------------- only one process moves

  lemma InspectOnly(c: Config, s: State, s': State, p: nat)
    requires s.Alive(p) && InspectStep(c, s, s', p)
    ensures Only(s, s', p) && s'.lock == s.lock
  {
    if s.procs[p].pc.Reclaim? {
      ReclaimOnly(c, s, s', p, s.procs[p].pc.probe);
    } else if s.procs[p].pc.Act? {
      ActOnly(s, s', p, s.procs[p].pc.probe, s.procs[p].pc.entry);
    } else {
      ViewOnly(c, s, s', p);
    }
  }

  lemma ViewOnly(c: Config, s: State, s': State, p: nat)
    requires s.Alive(p) && InspectStep(c, s, s', p) && !s.procs[p].pc.Reclaim? && !s.procs[p].pc.Act?
    ensures Only(s, s', p) && s'.lock == s.lock
  {
    hide Passes, MayConflict, SameGuard, ViewOf, ReclaimStep, ActStep;
  }

  lemma ActOnly(s: State, s': State, p: nat, probe: Probe, e: Entry)
    requires s.Alive(p) && ActStep(s, s', p, probe, e)
    ensures Only(s, s', p) && s'.lock == s.lock
  {
  }

  lemma ReclaimOnly(c: Config, s: State, s': State, p: nat, probe: Probe)
    requires s.Alive(p) && probe.first.Some? && ReclaimStep(c, s, s', p, probe)
    ensures Only(s, s', p) && s'.lock == s.lock
  {
    hide Passes, MayConflict, SameGuard, ViewOf, ActStep, Only;
    if e :| s.dir.Entries() == {e} && s.dir.Has(e) && ReclaimEntry(c, s, s', p, probe, e) {
      if ActStep(s, s', p, probe, e) { ActOnly(s, s', p, probe, e); } else { IdleOnly(s, s', p); }
    } else {
      RetryOnly(s, s', p, probe.attempt);
    }
  }

  lemma IdleOnly(s: State, s': State, p: nat)
    requires s.Alive(p) && Moves(s, s', p, s.dir, s.lock, Idle)
    ensures Only(s, s', p) && s'.lock == s.lock
  {
  }

  lemma RetryOnly(s: State, s': State, p: nat, attempt: nat)
    requires s.Alive(p)
    requires Moves(s, s', p, s.dir, s.lock, Idle) || Moves(s, s', p, s.dir, s.lock, Retry(attempt))
    ensures Only(s, s', p) && s'.lock == s.lock
  {
  }

  lemma TakeOnly(s: State, s': State, p: nat)
    requires s.Alive(p) && TakeStep(s, s', p)
    ensures Only(s, s', p) && s'.lock == s.lock
  {
    hide Written;
  }

  lemma LeaveOnly(s: State, s': State, p: nat)
    requires s.Alive(p) && s.procs[p].pc.LeaveGuard? && LeaveStep(s, s', p)
    ensures Only(s, s', p) && s'.lock == s.lock
  {
  }

  lemma OwnOnly(s: State, s': State, p: nat)
    requires s.Alive(p) && s.procs[p].pc.Owning? && OwnStep(s, s', p)
    ensures Only(s, s', p) && (s'.lock == s.lock || s'.lock.None? || s'.lock.value.author == p)
  {
  }

  lemma PeekOnly(c: Config, s: State, s': State, p: nat)
    requires s.Alive(p) && PeekStep(c, s, s', p)
    ensures Only(s, s', p) && s'.lock == s.lock
  {
    hide Passes, MayConflict;
  }

  /** A step changes its own process, and a holder's step only its own lock file. */
  lemma ActsOnly(c: Config, s: State, s': State, p: nat)
    requires Acts(c, s, s', p)
    ensures Only(s, s', p)
    ensures Holds(s.procs[p].pc) ==> s'.lock == s.lock || s'.lock.None? || s'.lock.value.author == p
  {
    hide InspectStep, TakeStep, LockStep, LeaveStep, OwnStep, PeekStep, Only;
    match s.procs[p].pc {
      case InGuard(_, _, _) => LockOnly(c, s, s', p);
      case LeaveGuard(_, _, _, _) => LeaveOnly(s, s', p);
      case Owning(_, _, _) => OwnOnly(s, s', p);
      case Idle => if InspectStep(c, s, s', p) { InspectOnly(c, s, s', p); } else { PeekOnly(c, s, s', p); }
      case Peek(_) => PeekOnly(c, s, s', p);
      case Available => PeekOnly(c, s, s', p);
      case Refused(_) =>
      case _ => if InspectStep(c, s, s', p) { InspectOnly(c, s, s', p); } else { TakeOnly(s, s', p); }
    }
  }

  // ---------------------------------------------------------------- one look

  /** While somebody has the lock it is the same one: nobody takes over without a gap. */
  lemma HolderStays(c: Config, s: State, s': State)
    requires Inv(c, s) && Inv(c, s') && Next(c, s, s') && HeldLive(s) && HeldLive(s')
    ensures s'.lock.value.author == s.lock.value.author
  {
    hide Acts, GuardOk, DirOk;
    var p, p' := s.lock.value.author, s'.lock.value.author;
    if s'.Alive(p) && Holds(s'.procs[p].pc) {
      HolderWrote(c, s', p);
    } else if p != p' && !Ticks(s, s') {
      var a: nat :| Dies(c, s, s', a) || Acts(c, s, s', a);
      if Acts(c, s, s', a) { ActsOnly(c, s, s', a); }
    }
  }

  lemma HolderWrote(c: Config, s: State, p: nat)
    requires Inv(c, s) && s.Alive(p) && Holds(s.procs[p].pc)
    ensures s.lock.Some? && s.lock.value.author == p
  {
    assert s.procs[p].alive && LockOk(s, p);
  }

  /** What a look has read is the present holder's document. */
  ghost predicate Knows(s: State, q: nat) {
    && s.Alive(q) && s.procs[q].pc.Peek?
    && (s.procs[q].pc.look.LookCheck? && HeldLive(s) ==>
          var view := s.procs[q].pc.look.view;
          view.LockOwned? && view.owner.token.pid == s.lock.value.author)
  }

  /** A step that leaves somebody with the lock neither misleads the look nor lets it pass. */
  lemma LookGoesOn(c: Config, s: State, s': State, q: nat)
    requires Inv(c, s) && Next(c, s, s') && Knows(s, q) && !Unheld(s) && s'.Alive(q)
    ensures !s'.procs[q].pc.Available?
    ensures s'.procs[q].pc.Peek? && Inv(c, s') && !Unheld(s') ==> Knows(s', q)
  {
    HolderIsAuthor(c, s);
    hide Acts, GuardOk, DirOk, LockOk;
    if s'.procs[q].pc.Peek? && Inv(c, s') && !Unheld(s') {
      HolderIsAuthor(c, s');
      HolderStays(c, s, s');
    }
    if Ticks(s, s') {
    } else {
      var a: nat :| Dies(c, s, s', a) || Acts(c, s, s', a);
      if Acts(c, s, s', a) {
        ActsOnly(c, s, s', a);
        if a == q { OneLook(c, s, s', q); }
      }
    }
  }

  lemma OneLook(c: Config, s: State, s': State, q: nat)
    requires Acts(c, s, s', q) && Knows(s, q) && HeldLive(s)
    requires s.lock.value.owner.Some? && s.lock.value.owner.value.token.pid == s.lock.value.author
    ensures !s'.procs[q].pc.Available? && s'.lock == s.lock
    ensures s'.procs[q].pc.Peek? && s'.procs[q].pc.look.LookCheck? ==>
              var view := s'.procs[q].pc.look.view; view.LockOwned? && view.owner.token.pid == s.lock.value.author
  {
    PeekOnly(c, s, s', q);
  }

  /** From its first look on until it returns, process q is in assertAvailable. */
  ghost predicate Looking(run: seq<State>, from: nat, to: nat, q: nat) {
    && from < to < |run|
    && (forall k {:trigger run[k]} :: from <= k < to ==> run[k].Alive(q) && run[k].procs[q].pc.Peek?)
    && run[from].procs[q].pc == Peek(LookProbe)
  }

  lemma {:induction false} LookHolds(c: Config, run: seq<State>, from: nat, k: nat, to: nat, q: nat)
    requires c.Safe() && IsRun(c, run) && Looking(run, from, to, q) && from <= k < to
    requires forall i {:trigger run[i]} :: from <= i <= k ==> !Unheld(run[i])
    ensures Knows(run[k], q)
  {
    hide Next, Init, Inv, Unheld;
    if k > from {
      LookHolds(c, run, from, k - 1, to, q);
      RunInv(c, run, k - 1);
      RunInv(c, run, k);
      assert Next(c, run[k - 1], run[k - 1 + 1]);
      LookGoesOn(c, run[k - 1], run[k], q);
    } else {
      assert Knows(run[k], q);
    }
  }

  /** If assertAvailable passes, there was a moment between its first look and its return when no
      live process had the lock; so it never passes over one that had the lock throughout. */
  lemma PassesOnlyOverFree(c: Config, run: seq<State>, from: nat, to: nat, q: nat)
    requires c.Safe() && IsRun(c, run) && Looking(run, from, to, q)
    requires run[to].Alive(q) && run[to].procs[q].pc == Available
    ensures exists k :: from <= k < to && Unheld(run[k])
  {
    hide Next, Init, Inv, Unheld;
    if forall k {:trigger run[k]} :: from <= k < to ==> !Unheld(run[k]) {
      LookHolds(c, run, from, to - 1, to, q);
      RunInv(c, run, to - 1);
      assert Next(c, run[to - 1], run[to - 1 + 1]);
      LookGoesOn(c, run[to - 1], run[to], q);
    }
  }
}
