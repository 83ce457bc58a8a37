/** Mutual exclusion of the operation lock, over every run of the transition system.

    The proof is one invariant per process, `ProcOk`, plus what the guard directory and the
    lock file look like, `DirOk`. Each step is shown to keep the invariant of the process
    that takes it and of every other process. Only the facts about the guard differ between
    the two settings of `guardDeaths`.
 */
module OperationLockProof {
  import opened Options
  import opened OperationLock

  // ---------------------------------------------------------------- invariant

  /** The guard directory never holds two entries. */
  ghost predicate OneEntry(dir: Dir) {
    && (forall e, e' :: dir.Has(e) && dir.Has(e') ==> e == e')
  }

  /** A process that saw the directory empty is about to create owner.json. */
  function SawEmpty(pc: PC): Option<int> {
    match pc
    case Stamp(_, since) => Some(since)
    case Create(_, since, _) => Some(since)
    case StatDir(probe, entries) => if entries == {} && probe.first.None? then Some(probe.since) else None
    case _ => None
  }

  ghost predicate DirOk(c: Config, s: State) {
    && OneEntry(s.dir)
    && (s.dir.Dir? ==> s.dir.modifiedAt <= s.now)
    && (s.dir.Has(OwnerJson) ==>
          var f := s.dir.owner.value;
          && Plausible(c, s, f)
          && f.createdAt <= s.dir.modifiedAt
          && (!c.guardDeaths ==>
                && s.Alive(f.author) && Mine(s.procs[f.author].pc) == Some(OwnerJson)
                && (f.owner.Some? ==> f.owner.value.token.pid == f.author)))
    && (!c.guardDeaths && s.dir.Dir? ==> s.dir.claims == map[])
  }

  /** A live process really holds the lock that the lock file records. */
  ghost predicate HeldLive(s: State) {
    s.lock.Some? && s.Alive(s.lock.value.author) && Holds(s.procs[s.lock.value.author].pc)
  }

  /** The token a process's steps work with. */
  predicate OwnToken(pc: PC, p: nat) {
    match pc
    case Create(_, _, o) => o.token.pid == p
    case WriteOwner(_, o) => o.token.pid == p
    case StampClaim(_, t) => t.pid == p
    case OpenClaim(_, o) => o.token.pid == p
    case WriteClaim(_, o) => o.token.pid == p
    case InGuard(m, t, l) =>
      && t.pid == p && (m == OwnerJson || m == Claim(t))
      && (l.CreateLock? ==> l.owner.token.pid == p) && (l.WriteLock? ==> l.owner.token.pid == p)
    case LeaveGuard(m, t, _, h) => t.pid == p && (m == OwnerJson || m == Claim(t)) && (h.Some? ==> h.value.pid == p)
    case Owning(t, d, _) => t.pid == p && (d.Replace? ==> d.beat.token == t)
    case Refused(_) => false
    case _ => true
  }

  /** What a live process knows about the guard directory. */
  ghost predicate GuardOk(c: Config, s: State, p: nat)
    requires p < |s.procs|
  {
    var pc := s.procs[p].pc;
    && OwnToken(pc, p)
    && (Mine(pc).Some? ==>
          && s.dir.Has(Mine(pc).value)
          && s.dir.At(Mine(pc).value).author == p
          && (pc.InGuard? || pc.LeaveGuard? ==>
                var f := s.dir.At(Mine(pc).value);
                f.owner.Some? && f.owner.value.token == pc.token)
          && (pc.WriteOwner? || pc.CleanOwner? ==>
                && s.dir.owner.value.owner.None?
                && WindowSince(pc).value <= s.dir.owner.value.createdAt)
          && (pc.StampClaim? || pc.OpenClaim? || pc.WriteClaim? ==> WindowSince(pc).value <= s.dir.modifiedAt))
    && (WindowSince(pc).Some? ==> WindowSince(pc).value <= s.now)
    && (pc.Create? ==> pc.since <= pc.owner.heartbeatAt)
    && (pc.WriteOwner? ==> s.dir.owner.value.createdAt < pc.owner.heartbeatAt + c.window)
    && (SawEmpty(pc).Some? && s.dir.Dir? ==>
          && s.dir.claims == map[]
          && (s.dir.owner.Some? ==> SawEmpty(pc).value <= s.dir.owner.value.createdAt))
    && (c.atomicReclaim ==> !pc.Act? && (pc.Reclaim? ==> pc.probe.first.Some?) && (Probes(pc) ==> pc.probe.first.None?))
    && (!c.guardDeaths ==> FineOk(c, s, pc))
  }

  /** Where no guard holder dies: why the second inspection of a reclaim can never pass. */
  ghost predicate FineOk(c: Config, s: State, pc: PC) {
    && !pc.Act? && (pc.Reclaim? ==> c.atomicReclaim) && !pc.StampClaim? && !pc.OpenClaim? && !pc.WriteClaim?
    && (pc.ListDir? ==> AgainOk(s, pc.probe, s.now))
    && (pc.StatDir? ==> pc.entries <= {OwnerJson} && AgainOk(s, pc.probe, s.now)
                        && (pc.probe.first.Some? && pc.probe.first.value.Incomplete? && pc.entries != {}
                            && s.dir.Dir? ==>
                              pc.probe.since <= s.dir.modifiedAt))
    && (pc.StatEntry? || pc.ReadEntry? ==> pc.entry == OwnerJson && AgainOk(s, pc.probe, pc.lastActivity)
                                           && SeenOk(s, pc.probe, pc.lastActivity))
    && (pc.CheckEntry? ==>
          && pc.view.entry == OwnerJson
          && AgainOk(s, pc.probe, if pc.view.Incomplete? then pc.view.lastActivity else s.now)
          && (pc.view.Incomplete? ==>
                && SeenOk(s, pc.probe, pc.view.lastActivity)
                && (s.dir.Has(OwnerJson) ==> pc.probe.since < s.dir.owner.value.createdAt + c.window))
          && (pc.probe.first.Some? && pc.view.Owned? ==>
                && (pc.probe.first.value.Incomplete? ==> pc.probe.since < pc.view.owner.heartbeatAt + c.window)
                && (pc.probe.first.value.Owned? ==> pc.view.owner.token != pc.probe.first.value.owner.token)))
  }

  /** During the second inspection: the first one passed because the process it found is
      dead, or because the file it found unfinished is gone. */
  ghost predicate AgainOk(s: State, probe: Probe, lastActivity: int) {
    probe.first.Some? ==>
      match probe.first.value
      case Owned(_, o) => !s.Alive(o.token.pid)
      case Incomplete(_, _) =>
        && probe.since <= lastActivity
        && (s.dir.Has(OwnerJson) ==> probe.since <= s.dir.owner.value.createdAt)
  }

  /** The directory time read so far covers any owner file older than the inspection. */
  ghost predicate SeenOk(s: State, probe: Probe, lastActivity: int) {
    s.dir.Has(OwnerJson) ==>
      s.dir.owner.value.createdAt <= lastActivity || probe.since <= s.dir.owner.value.createdAt
  }

  /** What a live process knows about the lock file. */
  ghost predicate LockOk(s: State, p: nat)
    requires p < |s.procs|
  {
    var pc := s.procs[p].pc;
    && (Holds(pc) ==>
          && Owns(s.lock, if pc.Owning? then pc.token else pc.handle.value)
          && s.lock.value.author == p)
    && (pc.InGuard? ==>
          match pc.lockStep
          case CheckLock(_, view) =>
            HeldLive(s) ==> view.LockOwned? && view.owner.token.pid == s.lock.value.author
          case UnlinkLock => !HeldLive(s)
          case WriteLock(_) => s.lock.Some? && s.lock.value.author == p
          case CleanLock => s.lock.Some? && s.lock.value.author == p
          case _ => true)
  }

  ghost predicate Inv(c: Config, s: State) {
    && DirOk(c, s)
    && forall p {:trigger s.procs[p]} :: 0 <= p < |s.procs| && s.procs[p].alive ==> GuardOk(c, s, p) && LockOk(s, p)
  }

  predicate Probes(pc: PC) {
    pc.ListDir? || pc.StatDir? || pc.StatEntry? || pc.ReadEntry? || pc.CheckEntry?
  }

  // ---------------------------------------------------------------- consequences

  /** At most one live process has a guard file. */
  lemma OneGuard(c: Config, s: State, p: nat, q: nat)
    requires DirOk(c, s) && s.Alive(p) && s.Alive(q) && GuardOk(c, s, p) && GuardOk(c, s, q)
    requires Mine(s.procs[p].pc).Some? && Mine(s.procs[q].pc).Some?
    ensures p == q
  {
    assert Mine(s.procs[p].pc).value == Mine(s.procs[q].pc).value;
  }

  lemma InitInv(c: Config, s: State)
    requires c.Safe() && Init(c, s)
    ensures Inv(c, s)
  {
    if s.dir.Dir? {
      forall e, e' | s.dir.Has(e) && s.dir.Has(e') ensures e == e' {
        assert e in s.dir.Entries() && e' in s.dir.Entries();
      }
      if !c.guardDeaths {
        EntriesMeaning(s.dir);
      }
    }
  }

  lemma EntriesMeaning(dir: Dir)
    ensures forall e :: e in dir.Entries() <==> dir.Has(e)
    ensures dir.Dir? && (forall t :: Claim(t) !in dir.Entries()) ==> dir.claims == map[]
  {
    if dir.Dir? && (forall t :: Claim(t) !in dir.Entries()) {
      assert forall t :: t in dir.claims ==> Claim(t) in dir.Entries();
    }
  }

  lemma WithHas(dir: Dir, e: Entry, f: File, now: int)
    requires dir.Dir?
    ensures forall x :: dir.With(e, f, now).Has(x) <==> x == e || dir.Has(x)
    ensures forall x :: dir.With(e, f, now).Has(x) ==> dir.With(e, f, now).At(x) == if x == e then f else dir.At(x)
  {
  }

  lemma WithoutHas(dir: Dir, e: Entry, now: int)
    ensures forall x :: dir.Without(e, now).Has(x) <==> x != e && dir.Has(x)
    ensures forall x :: dir.Without(e, now).Has(x) ==> dir.Without(e, now).At(x) == dir.At(x)
  {
  }

  // ---------------------------------------------------------------- framing

  /** Only p moves, and the clock stands still. */
  ghost predicate Only(s: State, s': State, p: nat) {
    && s.Alive(p) && |s'.procs| == |s.procs| && s'.now == s.now && s'.Alive(p)
    && forall q :: 0 <= q < |s.procs| && q != p ==> s'.procs[q] == s.procs[q]
  }

  /** A step that leaves the guard directory and p's guard file alone disturbs nobody's guard. */
  lemma GuardFrame(c: Config, s: State, s': State, p: nat)
    requires Inv(c, s) && Only(s, s', p)
    requires s'.dir == s.dir && Mine(s'.procs[p].pc) == Mine(s.procs[p].pc)
    ensures DirOk(c, s')
    ensures forall q {:trigger s'.procs[q]} :: 0 <= q < |s'.procs| && q != p && s'.procs[q].alive ==> GuardOk(c, s', q)
  {
    forall q | 0 <= q < |s'.procs| && q != p && s'.procs[q].alive
      ensures GuardOk(c, s', q)
    {
      assert s.procs[q].alive && GuardOk(c, s, q);
      assert forall pid: nat :: s'.Alive(pid) == s.Alive(pid);
    }
  }

  lemma LockFrame(c: Config, s: State, s': State, p: nat)
    requires Inv(c, s) && Only(s, s', p)
    requires s'.lock == s.lock && (Holds(s'.procs[p].pc) ==> Holds(s.procs[p].pc))
    ensures forall q {:trigger s'.procs[q]} :: 0 <= q < |s'.procs| && q != p && s'.procs[q].alive ==> LockOk(s', q)
  {
    assert HeldLive(s') ==> HeldLive(s);
    forall q | 0 <= q < |s'.procs| && q != p && s'.procs[q].alive
      ensures LockOk(s', q)
    {
      assert s.procs[q].alive && LockOk(s, q);
    }
  }

  // ---------------------------------------------------------------- inspection

  lemma ListKeeps(c: Config, s: State, s': State, p: nat)
    requires c.Safe() && Inv(c, s) && s.Alive(p) && Windows(c, s')
    requires s.procs[p].pc.Idle? || s.procs[p].pc.ListDir?
    requires InspectStep(c, s, s', p)
    ensures GuardOk(c, s', p) && LockOk(s', p)
  {
    EntriesMeaning(s.dir);
  }

  lemma StatKeeps(c: Config, s: State, s': State, p: nat)
    requires c.Safe() && Inv(c, s) && s.Alive(p) && Windows(c, s')
    requires s.procs[p].pc.StatDir? || s.procs[p].pc.StatEntry?
    requires InspectStep(c, s, s', p)
    ensures GuardOk(c, s', p) && LockOk(s', p)
  {
  }

  lemma ReadKeeps(c: Config, s: State, s': State, p: nat)
    requires c.Safe() && Inv(c, s) && s.Alive(p) && Windows(c, s')
    requires s.procs[p].pc.ReadEntry?
    requires InspectStep(c, s, s', p)
    ensures GuardOk(c, s', p) && LockOk(s', p)
  {
    if !c.guardDeaths && s.dir.Has(OwnerJson) {
      var q := s.dir.owner.value.author;
      assert s.procs[q].alive && GuardOk(c, s, q) && q != p;
      assert s'.procs[q] == s.procs[q];
    }
  }

  lemma CheckKeeps(c: Config, s: State, s': State, p: nat)
    requires c.Safe() && Inv(c, s) && s.Alive(p) && Windows(c, s')
    requires s.procs[p].pc.CheckEntry?
    requires InspectStep(c, s, s', p)
    ensures GuardOk(c, s', p) && LockOk(s', p)
  {
    assert s'.procs[p].alive;
  }

  lemma LookOnly(c: Config, s: State, s': State, p: nat)
    requires s.Alive(p) && (s.procs[p].pc.Idle? || Probes(s.procs[p].pc)) && InspectStep(c, s, s', p)
    ensures Only(s, s', p) && s'.dir == s.dir && s'.lock == s.lock
    ensures Mine(s.procs[p].pc).None? && Mine(s'.procs[p].pc).None? && !Holds(s'.procs[p].pc)
  {
    hide Passes, MayConflict, SameGuard, ViewOf;
  }

  /** The inspection steps change no file. */
  lemma LookKeeps(c: Config, s: State, s': State, p: nat)
    requires c.Safe() && Inv(c, s) && s.Alive(p) && Windows(c, s')
    requires s.procs[p].pc.Idle? || Probes(s.procs[p].pc)
    requires InspectStep(c, s, s', p)
    ensures Inv(c, s')
  {
    hide InspectStep, GuardOk, LockOk, DirOk;
    LookOnly(c, s, s', p);
    match s.procs[p].pc {
      case Idle => ListKeeps(c, s, s', p);
      case ListDir(_) => ListKeeps(c, s, s', p);
      case StatDir(_, _) => StatKeeps(c, s, s', p);
      case StatEntry(_, _, _) => StatKeeps(c, s, s', p);
      case ReadEntry(_, _, _) => ReadKeeps(c, s, s', p);
      case CheckEntry(_, _) => CheckKeeps(c, s, s', p);
    }
    GuardFrame(c, s, s', p);
    LockFrame(c, s, s', p);
  }

  /** Looking at the lock from outside changes no file. */
  lemma PeekKeeps(c: Config, s: State, s': State, p: nat)
    requires c.Safe() && Inv(c, s) && s.Alive(p) && Windows(c, s') && PeekStep(c, s, s', p)
    ensures Inv(c, s')
  {
    assert s.procs[p].alive && GuardOk(c, s, p);
    GuardFrame(c, s, s', p);
    LockFrame(c, s, s', p);
  }

  lemma MakeDirKeeps(c: Config, s: State, s': State, p: nat)
    requires c.Safe() && Inv(c, s) && s.Alive(p) && Windows(c, s')
    requires s.procs[p].pc.MakeDir? && InspectStep(c, s, s', p)
    ensures Inv(c, s')
  {
    LockFrame(c, s, s', p);
    forall q | 0 <= q < |s'.procs| && s'.procs[q].alive ensures GuardOk(c, s', q) {
      assert s.procs[q].alive && GuardOk(c, s, q);
      MakeDirOne(c, s, s', p, q);
    }
  }

  lemma MakeDirOne(c: Config, s: State, s': State, p: nat, q: nat)
    requires c.Safe() && s.Alive(p) && s.Alive(q) && GuardOk(c, s, p) && GuardOk(c, s, q)
    requires s.procs[p].pc.MakeDir? && InspectStep(c, s, s', p)
    ensures GuardOk(c, s', q)
  {
  }

  // ---------------------------------------------------------------- reclaim

  /** Where no guard holder dies, every guard file is a live process's own and too young. */
  lemma NeverPasses(c: Config, s: State, e: Entry)
    requires c.Safe() && !c.guardDeaths && Inv(c, s) && Windows(c, s) && s.dir.Has(e)
    ensures var v := Inspect(s.dir, e); !Passes(c, s, v.LastActivity(), GuardOwner(v))
  {
    var q := s.dir.owner.value.author;
    assert s.procs[q].alive && GuardOk(c, s, q);
  }

  /** A guard file that passes for reclaim belongs to no live process, and nobody who saw
      the directory empty before that file was created can still be about to act on it. */
  lemma ReclaimedIsDead(c: Config, s: State, e: Entry, q: nat)
    requires c.Safe() && Inv(c, s) && s.Alive(q) && Windows(c, s) && s.dir.Has(e)
    requires var v := Inspect(s.dir, e); Passes(c, s, v.LastActivity(), GuardOwner(v))
    ensures Mine(s.procs[q].pc).None?
    ensures e == OwnerJson ==> SawEmpty(s.procs[q].pc).None?
  {
    if !c.guardDeaths {
      NeverPasses(c, s, e);
    } else {
      assert s.procs[q].alive && GuardOk(c, s, q);
    }
  }

  /** The rename or unlink of a reclaim. */
  ghost predicate Reclaims(c: Config, s: State, s': State, p: nat, e: Entry) {
    && s.Alive(p) && s.procs[p].pc.Reclaim? && s.dir.Entries() == {e} && s.dir.Has(e)
    && (var v := Inspect(s.dir, e); Passes(c, s, v.LastActivity(), GuardOwner(v)))
    && ActStep(s, s', p, s.procs[p].pc.probe, e)
  }

  lemma ReclaimDir(c: Config, s: State, s': State, p: nat, e: Entry)
    requires c.Safe() && c.guardDeaths && Inv(c, s) && Windows(c, s') && Reclaims(c, s, s', p, e)
    ensures DirOk(c, s')
    ensures GuardOk(c, s', p) && LockOk(s', p)
    ensures e.Claim? ==> s'.dir.Entries() == {}
  {
    EntriesMeaning(s.dir);
    EntriesMeaning(s'.dir);
    assert s.procs[p].alive && GuardOk(c, s, p);
    assert forall x :: s.dir.Has(x) ==> x == e;
    WithoutHas(s.dir, e, s.now);
    if e == OwnerJson {
      assert forall t :: t in s.dir.claims ==> s.dir.Has(Claim(t));
      assert s.dir.claims == map[];
    }
  }

  lemma ReclaimOther(c: Config, s: State, s': State, p: nat, e: Entry, q: nat)
    requires c.Safe() && c.guardDeaths && Inv(c, s) && Windows(c, s) && Reclaims(c, s, s', p, e)
    requires s.Alive(q) && q != p
    ensures GuardOk(c, s', q)
  {
    assert s.procs[q].alive && GuardOk(c, s, q);
    assert s.procs[p].alive && GuardOk(c, s, p);
    ReclaimedIsDead(c, s, e, q);
    EntriesMeaning(s.dir);
    WithoutHas(s.dir, e, s.now);
  }

  lemma ReclaimKeeps(c: Config, s: State, s': State, p: nat)
    requires c.Safe() && Inv(c, s) && s.Alive(p) && Windows(c, s) && Windows(c, s')
    requires s.procs[p].pc.Reclaim? && InspectStep(c, s, s', p)
    ensures Inv(c, s')
  {
    if exists e :: Reclaims(c, s, s', p, e) {
      var e :| Reclaims(c, s, s', p, e);
      if !c.guardDeaths { NeverPasses(c, s, e); }
      ReclaimDone(c, s, s', p, e);
    } else {
      ReclaimNot(c, s, s', p);
    }
  }

  lemma ReclaimDone(c: Config, s: State, s': State, p: nat, e: Entry)
    requires c.Safe() && c.guardDeaths && Inv(c, s) && Windows(c, s) && Windows(c, s') && Reclaims(c, s, s', p, e)
    ensures Inv(c, s')
  {
    ReclaimDir(c, s, s', p, e);
    LockFrame(c, s, s', p);
    forall q | 0 <= q < |s'.procs| && s'.procs[q].alive ensures GuardOk(c, s', q) && LockOk(s', q) {
      if q != p { ReclaimOther(c, s, s', p, e, q); }
    }
  }

  /** The second inspection ends without a rename or an unlink. */
  lemma ReclaimNot(c: Config, s: State, s': State, p: nat)
    requires c.Safe() && Inv(c, s) && s.Alive(p) && Windows(c, s')
    requires s.procs[p].pc.Reclaim? && InspectStep(c, s, s', p) && forall e :: !Reclaims(c, s, s', p, e)
    ensures Inv(c, s')
  {
    assert s.procs[p].alive && GuardOk(c, s, p);
    NotReclaimed(c, s, s', p);
    GuardFrame(c, s, s', p);
    LockFrame(c, s, s', p);
  }

  lemma NotReclaimed(c: Config, s: State, s': State, p: nat)
    requires s.Alive(p) && s.procs[p].pc.Reclaim? && InspectStep(c, s, s', p)
    requires forall e :: !Reclaims(c, s, s', p, e)
    ensures Only(s, s', p) && s'.dir == s.dir && s'.lock == s.lock
    ensures s'.procs[p].pc.Idle? || s'.procs[p].pc.MakeDir?
  {
    if |s.dir.Entries()| == 1 {
      if e :| s.dir.Entries() == {e} && s.dir.Has(e) && ReclaimEntry(c, s, s', p, s.procs[p].pc.probe, e) {
        assert !Reclaims(c, s, s', p, e);
      }
    }
  }

  // ---------------------------------------------------------------- taking the guard

  lemma StampKeeps(c: Config, s: State, s': State, p: nat)
    requires c.Safe() && Inv(c, s) && s.Alive(p) && Windows(c, s')
    requires s.procs[p].pc.Stamp? || s.procs[p].pc.StampClaim?
    requires TakeStep(s, s', p)
    ensures Inv(c, s')
  {
    assert s.procs[p].alive && GuardOk(c, s, p);
    GuardFrame(c, s, s', p);
    LockFrame(c, s, s', p);
  }

  lemma CreateKeeps(c: Config, s: State, s': State, p: nat)
    requires c.Safe() && Inv(c, s) && s.Alive(p) && Windows(c, s) && Windows(c, s')
    requires s.procs[p].pc.Create? && TakeStep(s, s', p)
    ensures Inv(c, s')
  {
    assert s.procs[p].alive && GuardOk(c, s, p);
    LockFrame(c, s, s', p);
    if s'.dir == s.dir {
      GuardFrame(c, s, s', p);
    } else {
      assert forall x :: !s.dir.Has(x);
      WithHas(s.dir, OwnerJson, s'.dir.owner.value, s.now);
      forall q | 0 <= q < |s'.procs| && s'.procs[q].alive && q != p ensures GuardOk(c, s', q) {
        assert s.procs[q].alive && GuardOk(c, s, q);
        CreateOther(c, s, s', p, q);
      }
    }
  }

  /** Whoever else saw the directory empty saw it before this file. */
  lemma CreateOther(c: Config, s: State, s': State, p: nat, q: nat)
    requires c.Safe() && DirOk(c, s) && s.Alive(p) && s.Alive(q) && q != p && GuardOk(c, s, p) && GuardOk(c, s, q)
    requires s.procs[p].pc.Create? && TakeStep(s, s', p) && s'.dir != s.dir
    ensures GuardOk(c, s', q)
  {
    WithHas(s.dir, OwnerJson, s'.dir.owner.value, s.now);
  }

  /** Writing one's own guard file leaves every other process's view of the directory right. */
  lemma RewriteFrame(c: Config, s: State, s': State, p: nat, e: Entry, f: File)
    requires Inv(c, s) && Only(s, s', p) && s'.lock == s.lock
    requires Mine(s.procs[p].pc) == Some(e) && Mine(s'.procs[p].pc) == Some(e) && s.dir.Has(e)
    requires s'.dir == s.dir.With(e, f, s.dir.modifiedAt) && f.author == p && f.createdAt == s.dir.At(e).createdAt
    requires e == OwnerJson ==> Plausible(c, s, f) && (f.owner.Some? ==> f.owner.value.token.pid == p)
    requires Holds(s'.procs[p].pc) == Holds(s.procs[p].pc)
    ensures DirOk(c, s')
    ensures forall q {:trigger s'.procs[q]} :: 0 <= q < |s'.procs| && q != p && s'.procs[q].alive
              ==> GuardOk(c, s', q) && LockOk(s', q)
  {
    assert s.procs[p].alive && GuardOk(c, s, p);
    LockFrame(c, s, s', p);
    WithHas(s.dir, e, f, s.dir.modifiedAt);
    forall q | 0 <= q < |s'.procs| && q != p && s'.procs[q].alive ensures GuardOk(c, s', q) {
      assert s.procs[q].alive && GuardOk(c, s, q);
      if Mine(s.procs[q].pc).Some? { OneGuard(c, s, p, q); }
    }
  }

  lemma WriteKeeps(c: Config, s: State, s': State, p: nat)
    requires c.Safe() && Inv(c, s) && s.Alive(p) && Windows(c, s')
    requires s.procs[p].pc.WriteOwner? || s.procs[p].pc.OpenClaim?
    requires TakeStep(s, s', p)
    ensures Inv(c, s')
  {
    assert s.procs[p].alive && GuardOk(c, s, p);
    var e := Mine(s.procs[p].pc).value;
    WithHas(s.dir, e, s'.dir.At(e), s.dir.modifiedAt);
    if s'.dir == s.dir {
      GuardFrame(c, s, s', p);
      LockFrame(c, s, s', p);
    } else {
      RewriteFrame(c, s, s', p, e, s'.dir.At(e));
    }
  }

  lemma WriteClaimKeeps(c: Config, s: State, s': State, p: nat)
    requires c.Safe() && Inv(c, s) && s.Alive(p) && Windows(c, s')
    requires s.procs[p].pc.WriteClaim? && TakeStep(s, s', p)
    ensures Inv(c, s')
  {
    assert s.procs[p].alive && GuardOk(c, s, p);
    var e := Mine(s.procs[p].pc).value;
    if Mine(s'.procs[p].pc).None? {
      LockFrame(c, s, s', p);
      forall q | 0 <= q < |s'.procs| && s'.procs[q].alive ensures GuardOk(c, s', q) {
        assert s.procs[q].alive && GuardOk(c, s, q);
      }
    } else {
      RewriteFrame(c, s, s', p, e, s'.dir.At(e));
    }
  }

  /** Removing one's own guard file: the clean-up of a failed write, or the release. */
  lemma RemoveKeeps(c: Config, s: State, s': State, p: nat, e: Entry)
    requires c.Safe() && Inv(c, s) && Only(s, s', p) && Mine(s.procs[p].pc) == Some(e)
    requires s'.dir == s.dir.Without(e, s.now) && s'.lock == s.lock
    requires Mine(s'.procs[p].pc).None? && Holds(s'.procs[p].pc) == Holds(s.procs[p].pc)
    ensures DirOk(c, s')
    ensures forall q {:trigger s'.procs[q]} :: 0 <= q < |s'.procs| && q != p && s'.procs[q].alive
              ==> GuardOk(c, s', q) && LockOk(s', q)
  {
    assert s.procs[p].alive && GuardOk(c, s, p);
    LockFrame(c, s, s', p);
    WithoutHas(s.dir, e, s.now);
    forall q | 0 <= q < |s'.procs| && q != p && s'.procs[q].alive ensures GuardOk(c, s', q) {
      assert s.procs[q].alive && GuardOk(c, s, q);
      if Mine(s.procs[q].pc).Some? { OneGuard(c, s, p, q); }
    }
  }

  lemma CleanKeeps(c: Config, s: State, s': State, p: nat)
    requires c.Safe() && Inv(c, s) && s.Alive(p) && Windows(c, s')
    requires s.procs[p].pc.CleanOwner? && TakeStep(s, s', p)
    ensures Inv(c, s')
  {
    assert s.procs[p].alive && GuardOk(c, s, p);
    RemoveKeeps(c, s, s', p, OwnerJson);
  }

  // ---------------------------------------------------------------- leaving the guard

  lemma LeaveKeeps(c: Config, s: State, s': State, p: nat)
    requires c.Safe() && Inv(c, s) && s.Alive(p) && Windows(c, s')
    requires s.procs[p].pc.LeaveGuard? && !s.procs[p].pc.leaveStep.RemoveDir? && LeaveStep(s, s', p)
    ensures Inv(c, s')
  {
    var pc := s.procs[p].pc;
    assert s.procs[p].alive && GuardOk(c, s, p) && LockOk(s, p);
    if pc.leaveStep.ReadMine? {
      GuardFrame(c, s, s', p);
      LockFrame(c, s, s', p);
    } else {
      RemoveKeeps(c, s, s', p, pc.mine);
    }
  }

  lemma EmptyDirOther(c: Config, s: State, s': State, p: nat, q: nat)
    requires Inv(c, s) && Only(s, s', p) && s.Alive(q) && q != p && s.dir.Entries() == {} && s'.dir == NoDir
    ensures GuardOk(c, s', q)
  {
    assert s.procs[q].alive && GuardOk(c, s, q) && s'.procs[q] == s.procs[q];
    EntriesMeaning(s.dir);
  }

  lemma RemoveDirKeeps(c: Config, s: State, s': State, p: nat)
    requires c.Safe() && Inv(c, s) && s.Alive(p) && Windows(c, s')
    requires s.procs[p].pc.LeaveGuard? && s.procs[p].pc.leaveStep.RemoveDir? && LeaveStep(s, s', p)
    ensures Inv(c, s')
  {
    assert s.procs[p].alive && GuardOk(c, s, p) && LockOk(s, p);
    LockFrame(c, s, s', p);
    if s'.dir == s.dir {
      GuardFrame(c, s, s', p);
    } else {
      forall q | 0 <= q < |s'.procs| && q != p && s'.procs[q].alive ensures GuardOk(c, s', q) {
        assert s.procs[q].alive;
        EmptyDirOther(c, s, s', p, q);
      }
      assert GuardOk(c, s', p);
    }
  }

  // ---------------------------------------------------------------- the canonical lock file

  /** In the guarded section nobody else is, so a lock file is created, and a stale one
      removed, under no live holder. */
  lemma LockFileOther(c: Config, s: State, s': State, p: nat, q: nat)
    requires Inv(c, s) && Only(s, s', p) && s.procs[p].pc.InGuard? && s.Alive(q) && q != p
    requires Holds(s.procs[q].pc) ==> s'.lock == s.lock
    ensures LockOk(s', q)
  {
    assert s.procs[p].alive && GuardOk(c, s, p) && s.procs[q].alive && GuardOk(c, s, q) && LockOk(s, q);
    if s.procs[q].pc.InGuard? { OneGuard(c, s, p, q); }
  }

  lemma NoOtherHolder(c: Config, s: State, p: nat)
    requires Inv(c, s) && s.Alive(p) && s.procs[p].pc.InGuard?
    requires match s.procs[p].pc.lockStep
             case UnlinkLock => true
             case CreateLock(_) => s.lock.None?
             case WriteLock(_) => true
             case CleanLock => true
             case _ => false
    ensures forall q {:trigger s.procs[q]} :: 0 <= q < |s.procs| && s.procs[q].alive ==> !Holds(s.procs[q].pc)
  {
    assert s.procs[p].alive && LockOk(s, p);
    forall q | 0 <= q < |s.procs| && s.procs[q].alive ensures !Holds(s.procs[q].pc) {
      assert LockOk(s, q);
    }
  }

  lemma LockSelf(c: Config, s: State, s': State, p: nat)
    requires c.Safe() && Inv(c, s) && s.Alive(p) && s.procs[p].pc.InGuard? && LockStep(c, s, s', p)
    ensures LockOk(s', p)
  {
    assert s.procs[p].alive && GuardOk(c, s, p) && LockOk(s, p);
    if s.lock.Some? && s.Alive(s.lock.value.author) {
      var q := s.lock.value.author;
      assert s.procs[q].alive && LockOk(s, q) && GuardOk(c, s, q);
    }
  }

  lemma LockOnly(c: Config, s: State, s': State, p: nat)
    requires s.Alive(p) && s.procs[p].pc.InGuard? && LockStep(c, s, s', p)
    ensures Only(s, s', p) && s'.dir == s.dir
    ensures Mine(s'.procs[p].pc) == Mine(s.procs[p].pc)
    ensures s'.procs[p].pc.InGuard? || s'.procs[p].pc.LeaveGuard?
    ensures OwnToken(s.procs[p].pc, p) ==> OwnToken(s'.procs[p].pc, p) && s'.procs[p].pc.token == s.procs[p].pc.token
  {
  }

  lemma LockKeeps(c: Config, s: State, s': State, p: nat)
    requires c.Safe() && Inv(c, s) && s.Alive(p) && s.procs[p].pc.InGuard? && LockStep(c, s, s', p)
    ensures Inv(c, s')
  {
    LockSelf(c, s, s', p);
    LockOnly(c, s, s', p);
    assert s.procs[p].alive && GuardOk(c, s, p);
    GuardFrame(c, s, s', p);
    assert GuardOk(c, s', p);
    if s'.lock != s.lock || Holds(s'.procs[p].pc) { NoOtherHolder(c, s, p); }
    forall q | 0 <= q < |s'.procs| && q != p && s'.procs[q].alive ensures LockOk(s', q) {
      assert s.procs[q].alive;
      LockFileOther(c, s, s', p, q);
    }
  }

  // ---------------------------------------------------------------- the handle

  lemma OwnKeeps(c: Config, s: State, s': State, p: nat)
    requires c.Safe() && Inv(c, s) && s.Alive(p) && s.procs[p].pc.Owning? && OwnStep(s, s', p)
    ensures Inv(c, s')
  {
    assert s.procs[p].alive && GuardOk(c, s, p) && LockOk(s, p);
    GuardFrame(c, s, s', p);
    forall q | 0 <= q < |s'.procs| && q != p && s'.procs[q].alive ensures LockOk(s', q) {
      assert s.procs[q].alive && LockOk(s, q);
    }
  }

  // ---------------------------------------------------------------- clock and deaths

  lemma TickKeeps(c: Config, s: State, s': State)
    requires c.Safe() && Inv(c, s) && Windows(c, s') && Ticks(s, s')
    ensures Inv(c, s')
  {
    forall q | 0 <= q < |s'.procs| && s'.procs[q].alive ensures GuardOk(c, s', q) && LockOk(s', q) {
      assert s.procs[q].alive;
    }
  }

  lemma DeathKeeps(c: Config, s: State, s': State, p: nat)
    requires c.Safe() && Inv(c, s) && Dies(c, s, s', p)
    ensures Inv(c, s')
  {
    forall q | 0 <= q < |s'.procs| && s'.procs[q].alive ensures GuardOk(c, s', q) && LockOk(s', q) {
      assert s.procs[q].alive && GuardOk(c, s, q) && LockOk(s, q);
    }
  }

  lemma NextKeeps(c: Config, s: State, s': State)
    requires c.Safe() && Inv(c, s) && Windows(c, s) && Next(c, s, s')
    ensures Inv(c, s')
  {
    if Ticks(s, s') {
      TickKeeps(c, s, s');
    } else {
      var p: nat :| Dies(c, s, s', p) || Acts(c, s, s', p);
      if Dies(c, s, s', p) {
        DeathKeeps(c, s, s', p);
      } else {
        ActsKeeps(c, s, s', p);
      }
    }
  }

  lemma ActsKeeps(c: Config, s: State, s': State, p: nat)
    requires c.Safe() && Inv(c, s) && Windows(c, s) && Windows(c, s') && Acts(c, s, s', p)
    ensures Inv(c, s')
  {
    assert s.procs[p].alive && GuardOk(c, s, p);
    match s.procs[p].pc {
      case MakeDir(_) => MakeDirKeeps(c, s, s', p);
      case Reclaim(_) => ReclaimKeeps(c, s, s', p);
      case Stamp(_, _) => StampKeeps(c, s, s', p);
      case StampClaim(_, _) => StampKeeps(c, s, s', p);
      case Create(_, _, _) => CreateKeeps(c, s, s', p);
      case WriteOwner(_, _) => WriteKeeps(c, s, s', p);
      case OpenClaim(_, _) => WriteKeeps(c, s, s', p);
      case WriteClaim(_, _) => WriteClaimKeeps(c, s, s', p);
      case CleanOwner(_) => CleanKeeps(c, s, s', p);
      case InGuard(_, _, _) => LockKeeps(c, s, s', p);
      case LeaveGuard(_, _, step, _) =>
        if step.RemoveDir? { RemoveDirKeeps(c, s, s', p); } else { LeaveKeeps(c, s, s', p); }
      case Owning(_, _, _) => OwnKeeps(c, s, s', p);
      case Idle => if PeekStep(c, s, s', p) { PeekKeeps(c, s, s', p); } else { LookKeeps(c, s, s', p); }
      case Peek(_) => PeekKeeps(c, s, s', p);
      case Available => PeekKeeps(c, s, s', p);
      case _ => LookKeeps(c, s, s', p);
    }
  }

  lemma {:induction false} RunInv(c: Config, run: seq<State>, i: nat)
    requires c.Safe() && IsRun(c, run) && i < |run|
    ensures Inv(c, run[i]) && Windows(c, run[i])
  {
    if i == 0 {
      InitInv(c, run[0]);
    } else {
      RunInv(c, run, i - 1);
      assert Next(c, run[i - 1], run[i - 1 + 1]);
      NextKeeps(c, run[i - 1], run[i]);
    }
  }

  // ---------------------------------------------------------------- theorems

  /** In every state of every run, in every safe setting: at most one live process has a handle,
      at most one is inside the guard, and the holder's lock file is complete and its own. */
  lemma MutualExclusion(c: Config, run: seq<State>, i: nat, p: nat, q: nat)
    requires c.Safe() && IsRun(c, run) && i < |run|
    requires run[i].Alive(p) && run[i].Alive(q)
    ensures Holds(run[i].procs[p].pc) && Holds(run[i].procs[q].pc) ==> p == q
    ensures Mine(run[i].procs[p].pc).Some? && Mine(run[i].procs[q].pc).Some? ==> p == q
    ensures run[i].procs[p].pc.Owning? ==> Owns(run[i].lock, run[i].procs[p].pc.token)
    ensures !run[i].procs[p].pc.Refused?
  {
    RunInv(c, run, i);
    var s := run[i];
    assert s.procs[p].alive && s.procs[q].alive;
    if Mine(s.procs[p].pc).Some? && Mine(s.procs[q].pc).Some? { OneGuard(c, s, p, q); }
  }
}
