/** What the lock is for: acquiring a free lock succeeds, a heartbeat renews it, and a release
    leaves it free for the next process. */
module OperationLockUse {
  import opened Options
  import opened OperationLock
  import opened OperationLockProof
  import opened OperationLockProbe
  import opened OperationLockRace

  // ---------------------------------------------------------------- release

  /** What p's own step does to a lock that p holds. */
  lemma HolderStep(c: Config, s: State, s': State, p: nat)
    requires c.Safe() && Inv(c, s) && Acts(c, s, s', p) && Holds(s.procs[p].pc)
    ensures !Holds(s'.procs[p].pc) ==> s'.lock.None?
  {
    assert s.procs[p].alive && GuardOk(c, s, p) && LockOk(s, p);
  }

  ghost predicate Beating(s: State, p: nat) {
    s.Alive(p) && s.procs[p].pc.Owning? && (s.procs[p].pc.duty.Beat? || s.procs[p].pc.duty.Replace?)
  }

  function Stamped(s: State, p: nat): Duty
    requires p < |s.procs| && s.procs[p].pc.Owning?
  {
    Replace(Owner(s.procs[p].pc.token, s.now))
  }

  /** One step of a heartbeat: it goes on, stamps the new document, or puts it in place. */
  lemma BeatStep(c: Config, s: State, s': State, p: nat)
    requires c.Safe() && Inv(c, s) && Acts(c, s, s', p) && Beating(s, p)
    ensures var pc, pc' := s.procs[p].pc, s'.procs[p].pc;
      && pc'.Owning? && pc'.token == pc.token
      && (pc'.duty == pc.duty
          || (pc.duty.Beat? && pc'.duty == Stamped(s, p))
          || (pc.duty.Replace? && pc'.duty.Rest? && s'.lock.Some? && s'.lock.value.owner == Some(pc.duty.beat)))
  {
    assert s.procs[p].alive && GuardOk(c, s, p) && LockOk(s, p);
  }

  lemma StepOf(c: Config, run: seq<State>, i: nat, p: nat)
    requires c.Safe() && IsRun(c, run) && i + 1 < |run| && run[i].Alive(p) && run[i + 1].Alive(p)
    ensures run[i + 1].procs[p] == run[i].procs[p] || Acts(c, run[i], run[i + 1], p)
    ensures Inv(c, run[i]) && Inv(c, run[i + 1])
  {
    RunInv(c, run, i);
    RunInv(c, run, i + 1);
    hide Inv, Acts, Windows, Init;
    var s, s' := run[i], run[i + 1];
    assert Next(c, s, s');
    if !Ticks(s, s') {
      var a: nat :| Dies(c, s, s', a) || Acts(c, s, s', a);
      if Acts(c, s, s', a) { ActsOnly(c, s, s', a); }
    }
  }

  /** A live process that stops holding the lock leaves no lock file behind. */
  lemma ReleaseFrees(c: Config, run: seq<State>, i: nat, p: nat)
    requires c.Safe() && IsRun(c, run) && i + 1 < |run| && run[i].Alive(p) && run[i + 1].Alive(p)
    requires Holds(run[i].procs[p].pc) && !Holds(run[i + 1].procs[p].pc)
    ensures run[i + 1].lock.None?
  {
    hide IsRun, Inv, Acts;
    StepOf(c, run, i, p);
    HolderStep(c, run[i], run[i + 1], p);
  }

  // ---------------------------------------------------------------- heartbeat

  /** From the stamp at k to the end at n, process p is busy with one heartbeat. */
  ghost predicate Beats(run: seq<State>, k: nat, n: nat, p: nat) {
    && k < n < |run|
    && (forall j {:trigger run[j]} :: k <= j <= n ==> run[j].Alive(p) && run[j].procs[p].pc.Owning?)
    && run[k].procs[p].pc.duty == Beat
    && (forall j {:trigger run[j]} :: k < j < n ==> run[j].procs[p].pc.duty.Replace?)
    && run[k + 1].procs[p].pc.duty.Replace?
    && run[n].procs[p].pc.duty == Rest
  }

  lemma {:induction false} BeatStays(c: Config, run: seq<State>, k: nat, j: nat, n: nat, p: nat)
    requires c.Safe() && IsRun(c, run) && Beats(run, k, n, p) && k <= j && j + 1 < n
    ensures run[j + 1].procs[p].pc.token == run[k].procs[p].pc.token
    ensures run[j + 1].procs[p].pc.duty == Stamped(run[k], p)
  {
    hide IsRun, Inv, Acts;
    StepOf(c, run, j, p);
    assert Beating(run[j], p);
    if j > k {
      BeatStays(c, run, k, j - 1, n, p);
    }
    if run[j + 1].procs[p] != run[j].procs[p] {
      BeatStep(c, run[j], run[j + 1], p);
    }
  }

  /** A heartbeat that has ended has put the holder's token into the lock file, with the time
      it was stamped. */
  lemma BeatRenews(c: Config, run: seq<State>, k: nat, n: nat, p: nat)
    requires c.Safe() && IsRun(c, run) && Beats(run, k, n, p)
    ensures run[n].lock.Some?
    ensures run[n].lock.value.owner == Some(Owner(run[k].procs[p].pc.token, run[k].now))
  {
    hide IsRun, Inv, Acts;
    BeatStays(c, run, k, n - 2, n, p);
    StepOf(c, run, n - 1, p);
    assert Beating(run[n - 1], p);
    BeatStep(c, run[n - 1], run[n - 1 + 1], p);
  }

  /** A step of another process leaves a held lock file as it is. */
  lemma OtherStep(c: Config, s: State, s': State, p: nat, q: nat)
    requires c.Safe() && Inv(c, s) && s.Alive(p) && Holds(s.procs[p].pc) && p != q && Acts(c, s, s', q)
    ensures s'.lock == s.lock
  {
    hide InspectStep, TakeStep, LeaveStep, PeekStep, DirOk, GuardOk;
    assert s.procs[p].alive && s.procs[q].alive && LockOk(s, p) && LockOk(s, q);
    match s.procs[q].pc {
      case InGuard(_, _, _) => if s'.lock != s.lock { NoOtherHolder(c, s, q); }
      case LeaveGuard(_, _, _, _) => LeaveOnly(s, s', q);
      case Owning(_, _, _) =>
      case Idle => if InspectStep(c, s, s', q) { InspectOnly(c, s, s', q); } else { PeekOnly(c, s, s', q); }
      case Peek(_) => PeekOnly(c, s, s', q);
      case Available => PeekOnly(c, s, s', q);
      case Refused(_) =>
      case _ => if InspectStep(c, s, s', q) { InspectOnly(c, s, s', q); } else { TakeOnly(s, s', q); }
    }
  }

  /** The lock file of a live holder changes by the holder's own steps alone. */
  lemma HeldLockStays(c: Config, run: seq<State>, i: nat, p: nat)
    requires c.Safe() && IsRun(c, run) && i + 1 < |run| && run[i].Alive(p) && Holds(run[i].procs[p].pc)
    requires !Acts(c, run[i], run[i + 1], p)
    ensures run[i + 1].lock == run[i].lock
  {
    RunInv(c, run, i);
    hide Inv, Acts, Windows, Init;
    var s, s' := run[i], run[i + 1];
    assert Next(c, s, s');
    if !Ticks(s, s') {
      var a: nat :| Dies(c, s, s', a) || Acts(c, s, s', a);
      if Acts(c, s, s', a) { OtherStep(c, s, s', p, a); }
    }
  }

  // ---------------------------------------------------------------- leaving the guard

  lemma MineStep(c: Config, s: State, s': State, p: nat)
    requires c.Safe() && Inv(c, s) && Acts(c, s, s', p) && Mine(s.procs[p].pc).Some?
    ensures Mine(s'.procs[p].pc).None? && !s.procs[p].pc.WriteClaim? ==> s'.dir.Entries() == {}
    ensures s.procs[p].pc.InGuard? && s.procs[p].pc.lockStep.CleanLock? ==> s'.lock.None?
  {
    assert s.procs[p].alive && GuardOk(c, s, p);
    var mine := Mine(s.procs[p].pc).value;
    assert forall e :: s.dir.Has(e) ==> e == mine;
    WithoutHas(s.dir, mine, s.now);
    EntriesMeaning(s.dir.Without(mine, s.now));
    hide Passes, MayConflict, SameLock, Filled, LockOk, InspectStep;
  }

  /** A live process that gives up its guard file leaves the guard empty, unless it could not rewrite a
      claim; and a lock file that could not be written is gone before the guard is left. */
  lemma GuardIsLeft(c: Config, run: seq<State>, i: nat, p: nat)
    requires c.Safe() && IsRun(c, run) && i + 1 < |run| && run[i].Alive(p) && run[i + 1].Alive(p)
    requires Mine(run[i].procs[p].pc).Some? && run[i + 1].procs[p] != run[i].procs[p]
    ensures Mine(run[i + 1].procs[p].pc).None? && !run[i].procs[p].pc.WriteClaim? ==> run[i + 1].dir.Entries() == {}
    ensures run[i].procs[p].pc.InGuard? && run[i].procs[p].pc.lockStep.CleanLock? ==> run[i + 1].lock.None?
  {
    hide IsRun, Inv, Acts;
    StepOf(c, run, i, p);
    MineStep(c, run[i], run[i + 1], p);
  }

  // ---------------------------------------------------------------- acquiring a free lock

  predicate Free(s: State) { s.lock.None? && s.dir.NoDir? }

  predicate Waits(s: State, p: nat) { s.Alive(p) && s.procs[p].pc == Idle }

  predicate EmptyGuard(s: State) { s.lock.None? && s.dir.Dir? && s.dir.owner.None? && s.dir.claims == map[] }

  predicate OwnGuard(s: State, p: nat) {
    s.dir.Dir? && s.dir.claims == map[] && s.dir.owner.Some? && s.dir.owner.value.author == p
  }

  /** How far p has come that began to acquire a free lock while nobody else did. */
  predicate OnTheWay(s: State, p: nat) {
    s.Alive(p) &&
    match s.procs[p].pc
    case MakeDir(_) => Free(s)
    case ListDir(probe) => EmptyGuard(s) && probe.first.None?
    case StatDir(probe, entries) => EmptyGuard(s) && probe.first.None? && entries == {}
    case Stamp(_, _) => EmptyGuard(s)
    case Create(_, _, _) => EmptyGuard(s)
    case WriteOwner(_, _) => s.lock.None? && OwnGuard(s, p)
    case InGuard(_, _, lockStep) =>
      && OwnGuard(s, p)
      && (lockStep.ProbeLock? || lockStep.StampLock? || lockStep.CreateLock? ==> s.lock.None?)
      && (lockStep.ProbeLock? || lockStep.StampLock? || lockStep.CreateLock? || lockStep.WriteLock?)
    case _ => false
  }

  /** A file could not be written, and is removed again. */
  predicate WriteFailed(pc: PC) { pc.CleanOwner? || (pc.InGuard? && pc.lockStep.CleanLock?) }

  /** What one step of its own makes of p. */
  ghost predicate Advances(s': State, p: nat) {
    s'.Alive(p) && (OnTheWay(s', p) || Holds(s'.procs[p].pc) || WriteFailed(s'.procs[p].pc))
  }

  lemma GoesOn(c: Config, s: State, s': State, p: nat)
    requires OnTheWay(s, p) && Acts(c, s, s', p)
    ensures Advances(s', p)
  {
    hide InspectStep, TakeStep, LockStep, Advances;
    if s.procs[p].pc.InGuard? {
      LocksOn(c, s, s', p);
    } else if InspectStep(c, s, s', p) {
      ListsOn(c, s, s', p);
    } else {
      TakesOn(s, s', p);
    }
  }

  lemma ListsOn(c: Config, s: State, s': State, p: nat)
    requires OnTheWay(s, p) && InspectStep(c, s, s', p)
    ensures Advances(s', p)
  {
    if s.dir.Dir? && s.dir.owner.None? && s.dir.claims == map[] { assert s.dir.Entries() == {}; }
    hide Passes, MayConflict, SameGuard, ViewOf, ReclaimStep, ActStep;
  }

  lemma TakesOn(s: State, s': State, p: nat)
    requires OnTheWay(s, p) && TakeStep(s, s', p)
    ensures Advances(s', p)
  {
  }

  lemma LocksOn(c: Config, s: State, s': State, p: nat)
    requires OnTheWay(s, p) && s.procs[p].pc.InGuard? && LockStep(c, s, s', p)
    ensures Advances(s', p)
  {
  }

  /** From i to j nobody but p takes a step of its own; others may die, and time may pass. */
  ghost predicate Alone(c: Config, run: seq<State>, i: nat, j: nat, p: nat) {
    && i <= j < |run|
    && (forall k {:trigger run[k]} :: i <= k <= j ==> run[k].Alive(p))
    && (forall k, q: nat {:trigger Acts(c, run[k], run[k + 1], q)} :: i <= k < j && q != p
          ==> !Acts(c, run[k], run[k + 1], q))
  }

  lemma AloneStep(c: Config, run: seq<State>, i: nat, j: nat, p: nat)
    requires IsRun(c, run) && Alone(c, run, i, j + 1, p) && i <= j
    ensures Acts(c, run[j], run[j + 1], p) || (OnTheWay(run[j], p) ==> OnTheWay(run[j + 1], p))
  {
    hide Acts, Windows, Init;
    var s, s' := run[j], run[j + 1];
    assert Next(c, s, s') && run[j + 1].Alive(p);
    if !Ticks(s, s') {
      var a: nat :| Dies(c, s, s', a) || Acts(c, s, s', a);
    }
  }

  lemma {:induction false} WayHolds(c: Config, run: seq<State>, i: nat, j: nat, p: nat)
    requires IsRun(c, run) && Alone(c, run, i, j, p) && Free(run[i]) && run[i].procs[p].pc == MakeDir(0)
    requires forall k {:trigger run[k]} :: i <= k < j
               ==> !Holds(run[k].procs[p].pc) && !WriteFailed(run[k].procs[p].pc)
    ensures OnTheWay(run[j], p) || Holds(run[j].procs[p].pc) || WriteFailed(run[j].procs[p].pc)
  {
    hide IsRun, Acts;
    if j == i {
    } else {
      WayHolds(c, run, i, j - 1, p);
      AloneStep(c, run, i, j - 1, p);
      if Acts(c, run[j - 1], run[j - 1 + 1], p) { GoesOn(c, run[j - 1], run[j], p); }
    }
  }

  /** A process that begins to acquire a free lock, and is alone with it, is not refused: when its
      call has ended it has held the lock, or a file of its own could not be written. */
  lemma FreeIsAcquired(c: Config, run: seq<State>, i: nat, j: nat, p: nat)
    requires IsRun(c, run) && Alone(c, run, i, j, p) && Free(run[i]) && run[i].procs[p].pc == MakeDir(0)
    requires run[j].procs[p].pc == Idle
    ensures exists k :: i <= k < j && (Holds(run[k].procs[p].pc) || WriteFailed(run[k].procs[p].pc))
  {
    if forall k {:trigger run[k]} :: i <= k < j ==> !Holds(run[k].procs[p].pc) && !WriteFailed(run[k].procs[p].pc) {
      WayHolds(c, run, i, j, p);
    }
  }

  // ---------------------------------------------------------------- from holder to holder

  lemma Here(c: Config, s: State)
    requires Windows(c, s)
    ensures Reached(c, s, s)
  {
    assert Path(c, [s], s, s);
  }

  /** Inside the guard with no lock file there, up to the handle. */
  lemma Locks(c: Config, s: State, t: State, p: nat, mine: Entry, token: Token, n: nat) returns (u: State)
    requires Reached(c, s, t) && At(t, p, InGuard(mine, token, ProbeLock(None)), n) && t.lock.None?
    ensures Reached(c, s, u)
    ensures u == Put(t, p, t.dir, Some(File(p, t.now, t.now, Some(Owner(Token(p, n), t.now)))),
                     LeaveGuard(mine, token, ReadMine, Some(Token(p, n))), n + 1)
  {
    hide Reached;
    var owner := Owner(Token(p, n), t.now);
    var a := Move(c, s, t, p, InGuard(mine, token, StampLock));
    var b := Do(c, s, a, p, t.dir, None, InGuard(mine, token, CreateLock(owner)), n + 1);
    var d := Do(c, s, b, p, t.dir, Some(File(p, t.now, t.now, None)), InGuard(mine, token, WriteLock(owner)), n + 1);
    var leave := LeaveGuard(mine, token, ReadMine, Some(owner.token));
    u := Do(c, s, d, p, t.dir, Some(File(p, t.now, t.now, Some(owner))), leave, n + 1);
  }

  /** The state in which p has a handle of its own and the guard is gone. */
  function Held(t: State, p: nat, token: Token, n: nat): State
    requires p < |t.procs|
  {
    Put(t, p, NoDir, Some(File(p, t.now, t.now, Some(Owner(token, t.now)))), Owning(token, Rest, Apply), n)
  }

  /** A free lock is acquired by a process that runs alone. */
  lemma Acquires(c: Config, s: State, t: State, p: nat, n: nat) returns (u: State)
    requires c.Valid() && Reached(c, s, t) && At(t, p, Idle, n) && Free(t)
    ensures u == Held(t, p, Token(p, n + 1), n + 2) && Reached(c, s, u)
  {
    hide Reached;
    var mine := Token(p, n);
    var a := MakesDir(c, s, t, p, n);
    var b := Enters(c, s, a, p, t.now, n);
    var d := Locks(c, s, b, p, OwnerJson, mine, n + 1);
    assert d.dir.Entries() == {OwnerJson};
    u := Leaves(c, s, d, p, OwnerJson, mine, Some(Token(p, n + 1)), n + 2);
  }

  /** A holder gives the lock back. */
  lemma Releases(c: Config, s: State, t: State, p: nat, token: Token, n: nat) returns (u: State)
    requires Reached(c, s, t) && At(t, p, Owning(token, Rest, Apply), n) && Owns(t.lock, token)
    ensures u == Put(t, p, t.dir, None, Idle, n) && Reached(c, s, u)
  {
    hide Reached;
    var a := Move(c, s, t, p, Owning(token, Drop, ProbeOwned));
    var b := Move(c, s, a, p, Owning(token, Drop, StatOwned));
    var d := Move(c, s, b, p, Owning(token, Drop, ReadOwned));
    var e := Move(c, s, d, p, Owning(token, Drop, Apply));
    u := Do(c, s, e, p, t.dir, None, Idle, n);
  }

  predicate OnlyMoved(s: State, t: State, p: nat, q: nat) {
    && |t.procs| == |s.procs| && t.now == s.now
    && forall r :: 0 <= r < |s.procs| && r != p && r != q ==> t.procs[r] == s.procs[r]
  }

  /** From a free lock one process reaches a handle, gives it back, and the next reaches one, without
      a step of anybody else and without any time passing. */
  lemma PassesOn(c: Config, s: State, p: nat, q: nat) returns (t: State, u: State, v: State)
    requires c.Valid() && Windows(c, s) && Free(s) && Waits(s, p) && Waits(s, q)
    ensures Reached(c, s, t) && t.Alive(p) && Holds(t.procs[p].pc) && OnlyMoved(s, t, p, q)
    ensures Reached(c, t, u) && u.Alive(p) && !Holds(u.procs[p].pc) && OnlyMoved(s, u, p, q) && Free(u)
    ensures Reached(c, u, v) && v.Alive(q) && Holds(v.procs[q].pc) && OnlyMoved(s, v, p, q)
  {
    Here(c, s);
    hide Reached;
    var n := s.procs[p].serial;
    t := Acquires(c, s, s, p, n);
    Here(c, t);
    u := Releases(c, t, t, p, Token(p, n + 1), n + 2);
    Here(c, u);
    v := Acquires(c, u, u, q, u.procs[q].serial);
  }

  // ---------------------------------------------------------------- what the dead leave

  /** The lock of a dead owner passes to a process that runs alone, once a lease is over. */
  lemma TakesLeftLock(c: Config, s: State, p: nat, o: Owner) returns (u: State)
    requires c.Valid() && Windows(c, s) && s.dir.NoDir? && Waits(s, p) && StaleLock(c, s, o)
    ensures Reached(c, s, u) && u.Alive(p) && Holds(u.procs[p].pc) && OnlyMoved(s, u, p, p)
    ensures u.dir.NoDir? && u.lock.Some? && u.lock.value.author == p
  {
    Here(c, s);
    hide Reached;
    var n := s.procs[p].serial;
    var a := MakesDir(c, s, s, p, n);
    var b := Enters(c, s, a, p, s.now, n);
    var d := Condemns(c, s, b, p, OwnerJson, Token(p, n), o, n + 1);
    var e := Grabs(c, s, d, p, OwnerJson, Token(p, n), n + 1);
    assert e.dir.Entries() == {OwnerJson};
    u := Leaves(c, s, e, p, OwnerJson, Token(p, n), Some(Token(p, n + 1)), n + 2);
  }

  /** So it does when its owner, or another process, has also died inside the guard. */
  lemma TakesLeftGuard(c: Config, s: State, p: nat, o: Owner) returns (u: State)
    requires c.Valid() && Windows(c, s) && Waits(s, p) && StaleLock(c, s, o)
    requires OneOwner(s) && Stale(c, s, OwnerView(s))
    ensures Reached(c, s, u) && u.Alive(p) && Holds(u.procs[p].pc) && OnlyMoved(s, u, p, p)
    ensures u.dir.NoDir? && u.lock.Some? && u.lock.value.author == p
  {
    Here(c, s);
    hide Reached;
    var n := s.procs[p].serial;
    var mine := Token(p, n);
    var a := Reclaimer(c, s, s, p, n);
    Overwritten(s, mine);
    var b := Claims(c, s, a, p, s.now, mine, s.dir.owner.value.(author := p), n + 1);
    var d := Condemns(c, s, b, p, Claim(mine), mine, o, n + 1);
    var e := Grabs(c, s, d, p, Claim(mine), mine, n + 1);
    assert e.dir.Entries() == {Claim(mine)};
    u := Leaves(c, s, e, p, Claim(mine), mine, Some(Token(p, n + 1)), n + 2);
  }

  // ---------------------------------------------------------------- assertAvailable

  lemma LookStep(c: Config, s: State, s': State, q: nat)
    requires Acts(c, s, s', q) && s.procs[q].pc == Peek(LookProbe) && s.lock.None?
    ensures s'.Alive(q) && s'.procs[q].pc == Available
  {
  }

  /** From `from` to `to` process q has been in assertAvailable, and the lock free. */
  ghost predicate LooksAtFree(run: seq<State>, from: nat, to: nat, q: nat) {
    && from <= to < |run|
    && (forall k {:trigger run[k]} :: from <= k <= to ==> run[k].Alive(q) && run[k].lock.None?)
    && (forall k {:trigger run[k]} :: from <= k < to ==> run[k].procs[q].pc.Peek?)
    && run[from].procs[q].pc == Peek(LookProbe)
  }

  /** assertAvailable passes over a lock that stays free. */
  lemma {:induction false} FreeIsAvailable(c: Config, run: seq<State>, from: nat, to: nat, q: nat)
    requires c.Safe() && IsRun(c, run) && LooksAtFree(run, from, to, q)
    ensures run[to].procs[q].pc == Peek(LookProbe) || run[to].procs[q].pc == Available
  {
    hide IsRun, Inv, Acts;
    if from == to {
    } else {
      FreeIsAvailable(c, run, from, to - 1, q);
      StepOf(c, run, to - 1, q);
      if run[to - 1 + 1].procs[q] != run[to - 1].procs[q] { LookStep(c, run[to - 1], run[to], q); }
    }
  }
}
