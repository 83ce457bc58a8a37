/** The runs in which the lock does not exclude, and so the exact settings in which it does.

    In all of them process 0 is dead and has left its lock file behind. Two live processes come
    to be inside the guard, and both replace the stale lock.
 */
module OperationLockRace {
  import opened Options
  import opened OperationLock
  import opened OperationLockProof

  // ---------------------------------------------------------------- paths

  ghost predicate Path(c: Config, run: seq<State>, s: State, t: State) {
    && |run| > 0 && run[0] == s && run[|run| - 1] == t
    && forall i {:trigger run[i]} :: 0 <= i < |run| - 1 ==> Next(c, run[i], run[i + 1])
  }

  ghost predicate Reach(c: Config, s: State, t: State) { exists run :: Path(c, run, s, t) }

  ghost predicate Reached(c: Config, s: State, t: State) { Windows(c, t) && Reach(c, s, t) }

  lemma Extends(c: Config, s: State, t: State, u: State)
    requires Reach(c, s, t) && Next(c, t, u)
    ensures Reach(c, s, u)
  {
    hide Next;
    var run :| Path(c, run, s, t);
    var longer := run + [u];
    forall i | 0 <= i < |longer| - 1 ensures Next(c, longer[i], longer[i + 1]) {
      if i < |run| - 1 { assert Next(c, run[i], run[i + 1]); }
    }
    assert Path(c, longer, s, u);
  }

  predicate At(t: State, p: nat, pc: PC, n: nat) { p < |t.procs| && t.procs[p] == Proc(true, pc, n) }

  /** Process p at another place, with the files as given. */
  function Put(t: State, p: nat, dir: Dir, lock: Option<File>, pc: PC, n: nat): State
    requires p < |t.procs|
  {
    State(t.now, dir, lock, t.procs[p := Proc(true, pc, n)])
  }

  predicate InTime(c: Config, now: int, pc: PC) { WindowSince(pc).Some? ==> now < WindowSince(pc).value + c.window }

  /** One step of process p. */
  lemma Do(c: Config, s: State, t: State, p: nat, dir: Dir, lock: Option<File>, pc: PC, n: nat) returns (u: State)
    requires Reached(c, s, t) && t.Alive(p) && InTime(c, t.now, pc)
    requires ProcStep(c, t, Put(t, p, dir, lock, pc, n), p)
    ensures u == Put(t, p, dir, lock, pc, n) && Reached(c, s, u)
  {
    hide ProcStep, Reach;
    u := Put(t, p, dir, lock, pc, n);
    assert Acts(c, t, u, p);
    assert Windows(c, u);
    Extends(c, s, t, u);
  }

  /** A step that leaves the files alone and draws no token. */
  lemma Move(c: Config, s: State, t: State, p: nat, pc: PC) returns (u: State)
    requires Reached(c, s, t) && t.Alive(p) && InTime(c, t.now, pc)
    requires ProcStep(c, t, Put(t, p, t.dir, t.lock, pc, t.procs[p].serial), p)
    ensures u == Put(t, p, t.dir, t.lock, pc, t.procs[p].serial) && Reached(c, s, u)
  {
    hide ProcStep, Reached;
    u := Do(c, s, t, p, t.dir, t.lock, pc, t.procs[p].serial);
  }

  lemma Wait(c: Config, s: State, t: State, now: int) returns (u: State)
    requires Reached(c, s, t) && t.now <= now && Windows(c, t.(now := now))
    ensures u == t.(now := now) && Reached(c, s, u)
  {
    hide Reach;
    u := t.(now := now);
    Extends(c, s, t, u);
  }

  lemma Die(c: Config, s: State, t: State, p: nat) returns (u: State)
    requires Reached(c, s, t) && t.Alive(p) && (c.guardDeaths || Mine(t.procs[p].pc).None?)
    ensures u == t.(procs := t.procs[p := t.procs[p].(alive := false)]) && Reached(c, s, u)
  {
    hide Reach;
    u := t.(procs := t.procs[p := t.procs[p].(alive := false)]);
    assert Dies(c, t, u, p);
    assert Windows(c, u);
    Extends(c, s, t, u);
  }

  // ---------------------------------------------------------------- owner.json, looked at

  ghost predicate OneOwner(t: State) { t.dir.Dir? && t.dir.claims == map[] && t.dir.owner.Some? }

  function OwnerView(t: State): GuardView
    requires t.dir.Dir? && t.dir.owner.Some?
  {
    ViewOf(t.dir, OwnerJson, Max(t.dir.modifiedAt, t.dir.owner.value.modifiedAt))
  }

  predicate Stale(c: Config, t: State, v: GuardView) { Passes(c, t, v.LastActivity(), GuardOwner(v)) }

  /** One inspection, from the listing of the directory to what it makes of owner.json. */
  lemma Inspects(c: Config, s: State, t: State, p: nat, probe: Probe, n: nat) returns (u: State)
    requires Reached(c, s, t) && At(t, p, ListDir(probe), n) && OneOwner(t)
    requires probe.since == t.now || probe.first.Some?
    requires t.now < probe.since + c.window
    ensures u == Put(t, p, t.dir, t.lock, CheckEntry(probe, OwnerView(t)), n) && Reached(c, s, u)
  {
    assert t.dir.Entries() == {OwnerJson};
    hide Reached;
    var last := Max(t.dir.modifiedAt, t.dir.owner.value.modifiedAt);
    var a := Move(c, s, t, p, StatDir(probe, {OwnerJson}));
    var b := Move(c, s, a, p, StatEntry(probe, OwnerJson, t.dir.modifiedAt));
    var d := Move(c, s, b, p, ReadEntry(probe, OwnerJson, last));
    u := Move(c, s, d, p, CheckEntry(probe, OwnerView(t)));
  }

  /** Acquiring up to the first view of owner.json. */
  lemma Comes(c: Config, s: State, t: State, p: nat, n: nat) returns (u: State)
    requires c.window > 0 && Reached(c, s, t) && At(t, p, Idle, n) && OneOwner(t)
    ensures u == Put(t, p, t.dir, t.lock, CheckEntry(Probe(0, t.now, None), OwnerView(t)), n) && Reached(c, s, u)
  {
    hide Reached;
    var a := Move(c, s, t, p, MakeDir(0));
    var b := Move(c, s, a, p, ListDir(Probe(0, t.now, None)));
    u := Inspects(c, s, b, p, Probe(0, t.now, None), n);
  }

  /** After a first view that passes, the second view, where it is a step of its own. */
  lemma LooksAgain(c: Config, s: State, t: State, p: nat, since: int, view: GuardView, n: nat) returns (u: State)
    requires !c.atomicReclaim && t.now < since + c.window
    requires Reached(c, s, t) && At(t, p, CheckEntry(Probe(0, since, None), view), n) && OneOwner(t)
              && Stale(c, t, view)
    ensures u == Put(t, p, t.dir, t.lock, CheckEntry(Probe(0, since, Some(view)), OwnerView(t)), n) && Reached(c, s, u)
  {
    hide Reached;
    var a := Move(c, s, t, p, ListDir(Probe(0, since, Some(view))));
    u := Inspects(c, s, a, p, Probe(0, since, Some(view)), n);
  }

  /** The second view passes. */
  lemma Decides(c: Config, s: State, t: State, p: nat, since: int, first: GuardView, view: GuardView, n: nat)
      returns (u: State)
    requires !c.atomicReclaim && t.now < since + c.window && SameGuard(first, view) && view.entry == OwnerJson
    requires Reached(c, s, t) && At(t, p, CheckEntry(Probe(0, since, Some(first)), view), n) && Stale(c, t, view)
    ensures u == Put(t, p, t.dir, t.lock, Act(Probe(0, since, Some(first)), OwnerJson), n) && Reached(c, s, u)
  {
    hide Reached;
    u := Move(c, s, t, p, Act(Probe(0, since, Some(first)), OwnerJson));
  }

  /** What the rename leaves. */
  function Renamed(t: State, token: Token): Dir
    requires t.dir.Dir? && t.dir.owner.Some?
  {
    Dir(None, t.dir.claims[token := t.dir.owner.value.(author := token.pid)], t.now)
  }

  /** The rename, of whatever owner.json is there by now. */
  lemma Renames(c: Config, s: State, t: State, p: nat, probe: Probe, n: nat) returns (u: State)
    requires Reached(c, s, t) && At(t, p, Act(probe, OwnerJson), n) && OneOwner(t) && t.now < probe.since + c.window
    ensures u == Put(t, p, Renamed(t, Token(p, n)), t.lock, StampClaim(probe.since, Token(p, n)), n + 1)
              && Reached(c, s, u)
  {
    hide Reached;
    u := Do(c, s, t, p, Renamed(t, Token(p, n)), t.lock, StampClaim(probe.since, Token(p, n)), n + 1);
  }

  /** Two looks and the rename, with nothing between them, in either setting. */
  lemma Reclaimer(c: Config, s: State, t: State, p: nat, n: nat) returns (u: State)
    requires c.window > 0 && Reached(c, s, t) && At(t, p, Idle, n) && OneOwner(t) && Stale(c, t, OwnerView(t))
    ensures u == Put(t, p, Renamed(t, Token(p, n)), t.lock, StampClaim(t.now, Token(p, n)), n + 1) && Reached(c, s, u)
  {
    var view, since := OwnerView(t), t.now;
    assert SameGuard(view, view) && view.entry == OwnerJson;
    hide Reached, SameGuard;
    var a := Comes(c, s, t, p, n);
    assert Stale(c, a, view);
    if c.atomicReclaim {
      u := ReclaimsAtOnce(c, s, a, p, n);
    } else {
      var b := LooksAgain(c, s, a, p, since, view, n);
      assert Stale(c, b, view);
      var d := Decides(c, s, b, p, since, view, view, n);
      u := Renames(c, s, d, p, Probe(0, since, Some(view)), n);
    }
  }

  lemma ReclaimsAtOnce(c: Config, s: State, t: State, p: nat, n: nat) returns (u: State)
    requires c.window > 0 && c.atomicReclaim && OneOwner(t) && Stale(c, t, OwnerView(t))
    requires Reached(c, s, t) && At(t, p, CheckEntry(Probe(0, t.now, None), OwnerView(t)), n)
    ensures u == Put(t, p, Renamed(t, Token(p, n)), t.lock, StampClaim(t.now, Token(p, n)), n + 1) && Reached(c, s, u)
  {
    hide Reached;
    var view := OwnerView(t);
    var again := Probe(0, t.now, Some(view));
    var a := Move(c, s, t, p, Reclaim(again));
    assert a.dir.Entries() == {OwnerJson} && Inspect(a.dir, OwnerJson) == view && SameGuard(view, view);
    var next := Put(a, p, Renamed(t, Token(p, n)), t.lock, StampClaim(t.now, Token(p, n)), n + 1);
    assert ReclaimEntry(c, a, next, p, again, OwnerJson);
    u := Do(c, s, a, p, Renamed(t, Token(p, n)), t.lock, StampClaim(t.now, Token(p, n)), n + 1);
  }

  /** The claim is written and the guard taken. */
  lemma Claims(c: Config, s: State, t: State, p: nat, since: int, token: Token, file: File, n: nat) returns (u: State)
    requires Reached(c, s, t) && At(t, p, StampClaim(since, token), n) && t.now < since + c.window
    requires t.dir == Dir(None, map[token := file], t.now) && file.author == p
    ensures var dir := Dir(None, map[token := File(p, file.createdAt, t.now, Some(Owner(token, t.now)))], t.now);
      u == Put(t, p, dir, t.lock, InGuard(Claim(token), token, ProbeLock(None)), n) && Reached(c, s, u)
  {
    hide Reached;
    var owner := Owner(token, t.now);
    var blank, full := file.(modifiedAt := t.now, owner := None), file.(modifiedAt := t.now, owner := Some(owner));
    Overwrites(token, file, blank);
    Overwrites(token, blank, full);
    var a := Move(c, s, t, p, OpenClaim(since, owner));
    var b := Do(c, s, a, p, a.dir.With(Claim(token), blank, t.now), t.lock, WriteClaim(since, owner), n);
    u := Do(c, s, b, p, Written(b.dir, Claim(token), p, owner, t.now), t.lock,
        InGuard(Claim(token), token, ProbeLock(None)), n);
  }

  lemma Overwrites(token: Token, f: File, g: File)
    ensures map[token := f][token := g] == map[token := g]
  {
  }

  // ---------------------------------------------------------------- a guard of one's own

  /** Acquiring with a new guard directory, up to the listing that finds it empty. */
  lemma MakesDir(c: Config, s: State, t: State, p: nat, n: nat) returns (u: State)
    requires c.window > 0 && Reached(c, s, t) && At(t, p, Idle, n)
    requires t.dir.NoDir? || t.dir.Entries() == {}
    ensures var dir := if t.dir.NoDir? then Dir(None, map[], t.now) else t.dir;
      u == Put(t, p, dir, t.lock, Stamp(0, t.now), n) && Reached(c, s, u)
  {
    hide Reached;
    var probe := Probe(0, t.now, None);
    var dir := if t.dir.NoDir? then Dir(None, map[], t.now) else t.dir;
    assert dir.Entries() == {};
    var a := Move(c, s, t, p, MakeDir(0));
    var b := Do(c, s, a, p, dir, t.lock, ListDir(probe), n);
    var d := Move(c, s, b, p, StatDir(probe, {}));
    u := Move(c, s, d, p, Stamp(0, t.now));
  }

  lemma Stamps(c: Config, s: State, t: State, p: nat, since: int, n: nat) returns (u: State)
    requires Reached(c, s, t) && At(t, p, Stamp(0, since), n) && t.now < since + c.window
    ensures u == Put(t, p, t.dir, t.lock, Create(0, since, Owner(Token(p, n), t.now)), n + 1) && Reached(c, s, u)
  {
    hide Reached;
    u := Do(c, s, t, p, t.dir, t.lock, Create(0, since, Owner(Token(p, n), t.now)), n + 1);
  }

  lemma Creates(c: Config, s: State, t: State, p: nat, since: int, owner: Owner, n: nat) returns (u: State)
    requires Reached(c, s, t) && At(t, p, Create(0, since, owner), n) && t.now < since + c.window
    requires t.dir.Dir? && t.dir.owner.None?
    ensures var dir := Dir(Some(File(p, t.now, t.now, None)), t.dir.claims, t.now);
      u == Put(t, p, dir, t.lock, WriteOwner(since, owner), n) && Reached(c, s, u)
  {
    hide Reached;
    var dir := Dir(Some(File(p, t.now, t.now, None)), t.dir.claims, t.now);
    u := Do(c, s, t, p, dir, t.lock, WriteOwner(since, owner), n);
  }

  lemma Writes(c: Config, s: State, t: State, p: nat, since: int, owner: Owner, n: nat) returns (u: State)
    requires Reached(c, s, t) && At(t, p, WriteOwner(since, owner), n)
    ensures u == Put(t, p, Written(t.dir, OwnerJson, p, owner, t.now), t.lock,
              InGuard(OwnerJson, owner.token, ProbeLock(None)), n)
    ensures Reached(c, s, u)
  {
    hide Reached;
    u := Do(c, s, t, p, Written(t.dir, OwnerJson, p, owner, t.now), t.lock,
        InGuard(OwnerJson, owner.token, ProbeLock(None)), n);
  }

  /** From an empty listing into the guard, at once. */
  lemma Enters(c: Config, s: State, t: State, p: nat, since: int, n: nat) returns (u: State)
    requires Reached(c, s, t) && At(t, p, Stamp(0, since), n) && t.now < since + c.window
    requires t.dir.Dir? && t.dir.owner.None?
    ensures var owner := Owner(Token(p, n), t.now);
      var dir := Dir(Some(File(p, t.now, t.now, Some(owner))), t.dir.claims, t.now);
      u == Put(t, p, dir, t.lock, InGuard(OwnerJson, owner.token, ProbeLock(None)), n + 1) && Reached(c, s, u)
  {
    hide Reached;
    var owner := Owner(Token(p, n), t.now);
    var a := Stamps(c, s, t, p, since, n);
    var b := Creates(c, s, a, p, since, owner, n + 1);
    u := Writes(c, s, b, p, since, owner, n + 1);
  }

  // ---------------------------------------------------------------- the stale lock

  /** One look at a complete lock file. */
  lemma Looks(c: Config, s: State, t: State, p: nat, mine: Entry, token: Token,
              first: Option<LockView>, o: Owner, n: nat) returns (u: State)
    requires Reached(c, s, t) && At(t, p, InGuard(mine, token, ProbeLock(first)), n)
    requires t.lock.Some? && t.lock.value.owner == Some(o)
    ensures u == Put(t, p, t.dir, t.lock, InGuard(mine, token, CheckLock(first, LockOwned(o))), n) && Reached(c, s, u)
  {
    hide Reached;
    var a := Move(c, s, t, p, InGuard(mine, token, StatLock(first)));
    var b := Move(c, s, a, p, InGuard(mine, token, ReadLock(first, t.lock.value.modifiedAt)));
    u := Move(c, s, b, p, InGuard(mine, token, CheckLock(first, LockOwned(o))));
  }

  /** The lock's dead owner is taken for alive, and the guard is left. */
  lemma GivesUp(c: Config, s: State, t: State, p: nat, mine: Entry, token: Token, o: Owner, n: nat) returns (u: State)
    requires Reached(c, s, t) && At(t, p, InGuard(mine, token, ProbeLock(None)), n)
    requires t.lock.Some? && t.lock.value.owner == Some(o)
    requires t.dir.Has(mine) && t.dir.Entries() == {mine}
    requires t.dir.At(mine).owner.Some? && t.dir.At(mine).owner.value.token == token
    ensures u == Put(t, p, NoDir, t.lock, Idle, n) && Reached(c, s, u)
  {
    hide Reached;
    var a := Looks(c, s, t, p, mine, token, None, o, n);
    var b := Move(c, s, a, p, LeaveGuard(mine, token, ReadMine, None));
    u := Leaves(c, s, b, p, mine, token, None, n);
  }

  /** Where a process goes on after leaving the guard. */
  function Over(handle: Option<Token>): PC {
    if handle.Some? then Owning(handle.value, Rest, Apply) else Idle
  }

  lemma Leaves(c: Config, s: State, t: State, p: nat, mine: Entry, token: Token, handle: Option<Token>, n: nat)
      returns (u: State)
    requires Reached(c, s, t) && At(t, p, LeaveGuard(mine, token, ReadMine, handle), n)
    requires t.dir.Has(mine) && t.dir.Entries() == {mine}
    requires t.dir.At(mine).owner.Some? && t.dir.At(mine).owner.value.token == token
    ensures u == Put(t, p, NoDir, t.lock, Over(handle), n) && Reached(c, s, u)
  {
    hide Reached;
    var a := Move(c, s, t, p, LeaveGuard(mine, token, UnlinkMine, handle));
    u := Empties(c, s, a, p, mine, token, handle, n);
  }

  lemma Empties(c: Config, s: State, t: State, p: nat, mine: Entry, token: Token, handle: Option<Token>, n: nat)
      returns (u: State)
    requires Reached(c, s, t) && At(t, p, LeaveGuard(mine, token, UnlinkMine, handle), n)
    requires t.dir.Has(mine) && t.dir.Entries() == {mine}
    ensures u == Put(t, p, NoDir, t.lock, Over(handle), n) && Reached(c, s, u)
  {
    hide Reached;
    OnlyMine(t.dir, mine, t.now);
    var a := Do(c, s, t, p, t.dir.Without(mine, t.now), t.lock, LeaveGuard(mine, token, RemoveDir, handle), n);
    u := Do(c, s, a, p, NoDir, t.lock, Over(handle), n);
  }

  lemma OnlyMine(dir: Dir, mine: Entry, now: int)
    requires dir.Has(mine) && dir.Entries() == {mine}
    ensures dir.Without(mine, now).Dir? && dir.Without(mine, now).Entries() == {}
  {
    EntriesMeaning(dir);
    EntriesMeaning(dir.Without(mine, now));
    WithoutHas(dir, mine, now);
  }

  ghost predicate StaleLock(c: Config, t: State, o: Owner) {
    t.lock.Some? && t.lock.value.owner == Some(o) && t.now - o.heartbeatAt >= c.lease && !t.Alive(o.token.pid)
  }

  /** Two looks at the lock of a dead owner, up to its removal. */
  lemma Condemns(c: Config, s: State, t: State, p: nat, mine: Entry, token: Token, o: Owner, n: nat) returns (u: State)
    requires Reached(c, s, t) && At(t, p, InGuard(mine, token, ProbeLock(None)), n) && StaleLock(c, t, o)
    ensures u == Put(t, p, t.dir, t.lock, InGuard(mine, token, UnlinkLock), n) && Reached(c, s, u)
  {
    hide Reached;
    var view := LockOwned(o);
    var a := Looks(c, s, t, p, mine, token, None, o, n);
    var b := Move(c, s, a, p, InGuard(mine, token, ProbeLock(Some(view))));
    var d := Looks(c, s, b, p, mine, token, Some(view), o, n);
    u := Move(c, s, d, p, InGuard(mine, token, UnlinkLock));
  }

  /** The lock that is there, whosever it is, is replaced by p's own. */
  lemma Grabs(c: Config, s: State, t: State, p: nat, mine: Entry, token: Token, n: nat) returns (u: State)
    requires Reached(c, s, t) && At(t, p, InGuard(mine, token, UnlinkLock), n)
    ensures Reached(c, s, u)
    ensures u == Put(t, p, t.dir, Some(File(p, t.now, t.now, Some(Owner(Token(p, n), t.now)))),
                     LeaveGuard(mine, token, ReadMine, Some(Token(p, n))), n + 1)
  {
    hide Reached;
    var owner := Owner(Token(p, n), t.now);
    var a := Do(c, s, t, p, t.dir, None, InGuard(mine, token, StampLock), n);
    var b := Do(c, s, a, p, t.dir, None, InGuard(mine, token, CreateLock(owner)), n + 1);
    var d := Do(c, s, b, p, t.dir, Some(File(p, t.now, t.now, None)), InGuard(mine, token, WriteLock(owner)), n + 1);
    var leave := LeaveGuard(mine, token, ReadMine, Some(owner.token));
    u := Do(c, s, d, p, t.dir, Some(File(p, t.now, t.now, Some(owner))), leave, n + 1);
  }

  /** Two processes inside the guard can both come to hold the lock. */
  ghost predicate BothInside(t: State, p: nat, q: nat) {
    p != q && exists mine, mine', token, token', n, n' ::
      At(t, p, InGuard(mine, token, ProbeLock(None)), n) && At(t, q, InGuard(mine', token', ProbeLock(None)), n')
  }

  lemma BothGrab(c: Config, s: State, t: State, p: nat, q: nat, o: Owner) returns (u: State)
    requires Reached(c, s, t) && BothInside(t, p, q) && StaleLock(c, t, o)
    ensures Reached(c, s, u) && u.Alive(p) && u.Alive(q) && Holds(u.procs[p].pc) && Holds(u.procs[q].pc)
  {
    hide Reached;
    var mine, mine', token, token', n, n' :|
      At(t, p, InGuard(mine, token, ProbeLock(None)), n) && At(t, q, InGuard(mine', token', ProbeLock(None)), n');
    var a := Condemns(c, s, t, p, mine, token, o, n);
    var b := Condemns(c, s, a, q, mine', token', o, n');
    var d := Grabs(c, s, b, p, mine, token, n);
    u := Grabs(c, s, d, q, mine', token', n');
  }

  // ---------------------------------------------------------------- how two come to be inside

  const LEFT_LOCK := Owner(Token(0, 0), 0)
  const LEFT_OWNER := Owner(Token(0, 1), 0)

  /** Process 0 is dead; processes 1 to 3 are about to acquire. */
  function Start(now: int, dir: Dir): State {
    State(now, dir, Some(File(0, 0, 0, Some(LEFT_LOCK))),
          [Proc(false, Idle, 0), Proc(true, Idle, 0), Proc(true, Idle, 0), Proc(true, Idle, 0)])
  }

  /** Nothing of a guard is left. */
  const FRESH := Start(0, NoDir)

  /** A guard is left whose owner died in it, a lease ago. */
  function Abandoned(c: Config): State {
    Start(c.lease, Dir(Some(File(0, 0, 0, Some(LEFT_OWNER))), map[], 0))
  }

  lemma StartIs(c: Config)
    requires c.Valid()
    ensures Init(c, FRESH) && Reached(c, FRESH, FRESH)
    ensures c.guardDeaths ==> Init(c, Abandoned(c)) && Reached(c, Abandoned(c), Abandoned(c))
  {
    assert Abandoned(c).dir.Entries() == {OwnerJson};
    assert Path(c, [FRESH], FRESH, FRESH) && Path(c, [Abandoned(c)], Abandoned(c), Abandoned(c));
  }

  ghost predicate Doubled(c: Config, s: State, t: State, p: nat, q: nat) {
    Init(c, s) && Reached(c, s, t) && BothInside(t, p, q) && StaleLock(c, t, LEFT_LOCK)
  }

  lemma Inside(t: State, p: nat, q: nat, mine: Entry, mine': Entry, token: Token, token': Token, n: nat, n': nat)
    requires p != q && At(t, p, InGuard(mine, token, ProbeLock(None)), n)
    requires At(t, q, InGuard(mine', token', ProbeLock(None)), n')
    ensures BothInside(t, p, q)
  {
  }

  /** A process died inside the guard, and two processes see what it left, twice. The first goes
      through the guard, leaves, and comes back with an owner.json of its own; the second then
      renames that one. */
  lemma TornReclaim(c: Config) returns (u: State)
    requires c.Valid() && c.guardDeaths && !c.atomicReclaim
    ensures Doubled(c, Abandoned(c), u, 1, 2)
  {
    StartIs(c);
    hide Reached, SameGuard, Renamed;
    var s, view := Abandoned(c), Owned(OwnerJson, LEFT_OWNER);
    assert SameGuard(view, view);
    var a := Comes(c, s, s, 2, 0);
    var b := LooksAgain(c, s, a, 2, c.lease, view, 0);
    var d := Decides(c, s, b, 2, c.lease, view, view, 0);
    var e := Returns(c, s, d);
    u := Steals(c, s, e, Probe(0, c.lease, Some(view)));
  }

  /** Process 1 goes through the guard and comes back. */
  lemma Returns(c: Config, s: State, t: State) returns (u: State)
    requires c.window > 0 && Reached(c, s, t) && At(t, 1, Idle, 0) && |t.procs| == 4
    requires t.dir == Dir(Some(File(0, 0, 0, Some(LEFT_OWNER))), map[], 0) && t.now == c.lease && !t.Alive(0)
    requires StaleLock(c, t, LEFT_LOCK)
    ensures Reached(c, s, u) && u.now == t.now && u.lock == t.lock
    ensures u.procs == t.procs[1 := Proc(true, InGuard(OwnerJson, Token(1, 1), ProbeLock(None)), 2)]
    ensures OneOwner(u)
  {
    hide Reached;
    var a := Reclaimer(c, s, t, 1, 0);
    Overwritten(t, Token(1, 0));
    var b := Claims(c, s, a, 1, t.now, Token(1, 0), File(1, 0, 0, Some(LEFT_OWNER)), 1);
    assert b.dir.Entries() == {Claim(Token(1, 0))};
    var d := GivesUp(c, s, b, 1, Claim(Token(1, 0)), Token(1, 0), LEFT_LOCK, 1);
    var e := MakesDir(c, s, d, 1, 1);
    u := Enters(c, s, e, 1, t.now, 1);
  }

  lemma Overwritten(t: State, token: Token)
    requires t.dir.Dir? && t.dir.claims == map[] && t.dir.owner.Some?
    ensures Renamed(t, token) == Dir(None, map[token := t.dir.owner.value.(author := token.pid)], t.now)
  {
  }

  lemma Steals(c: Config, s: State, t: State, probe: Probe) returns (u: State)
    requires Init(c, s) && Reached(c, s, t) && At(t, 2, Act(probe, OwnerJson), 0) && t.now < probe.since + c.window
    requires At(t, 1, InGuard(OwnerJson, Token(1, 1), ProbeLock(None)), 2) && OneOwner(t) && StaleLock(c, t, LEFT_LOCK)
    ensures Doubled(c, s, u, 1, 2)
  {
    hide Reached, Init;
    var a := Renames(c, s, t, 2, probe, 0);
    Overwritten(t, Token(2, 0));
    u := Claims(c, s, a, 2, probe.since, Token(2, 0), t.dir.owner.value.(author := 2), 1);
    Inside(u, 1, 2, OwnerJson, Claim(Token(2, 0)), Token(1, 1), Token(2, 0), 2, 1);
  }

  /** Process 1 has created its owner.json at time 0 and not yet written it. */
  lemma HalfWritten(c: Config) returns (u: State)
    requires c.Valid()
    ensures Reached(c, FRESH, u) && u.lock == FRESH.lock && u.now == 0
    ensures u.dir == Dir(Some(File(1, 0, 0, None)), map[], 0)
    ensures u.procs == FRESH.procs[1 := Proc(true, WriteOwner(0, Owner(Token(1, 0), 0)), 1)]
  {
    StartIs(c);
    hide Reached, Init;
    var a := MakesDir(c, FRESH, FRESH, 1, 0);
    var b := Stamps(c, FRESH, a, 1, 0, 0);
    u := Creates(c, FRESH, b, 1, 0, Owner(Token(1, 0), 0), 1);
  }

  /** A window longer than a lease: an owner.json is renamed while its author still writes it. */
  lemma LongWindow(c: Config) returns (u: State)
    requires c.Valid() && c.window > c.lease
    ensures Doubled(c, FRESH, u, 1, 2)
  {
    StartIs(c);
    hide Init;
    var s := FRESH;
    var a := HalfWritten(c);
    var b := Wait(c, s, a, c.lease);
    hide Reached;
    var d := Reclaimer(c, s, b, 2, 0);
    Overwritten(b, Token(2, 0));
    var e := Claims(c, s, d, 2, c.lease, Token(2, 0), File(2, 0, 0, None), 1);
    u := Writes(c, s, e, 1, 0, Owner(Token(1, 0), 0), 1);
    Inside(u, 1, 2, OwnerJson, Claim(Token(2, 0)), Token(1, 0), Token(2, 0), 1, 1);
  }

  /** A lease shorter than two windows, and a death inside the guard: process 2 sees the guard
      empty just before process 1 creates an owner.json stamped a window earlier, and is still
      about to create its own when a lease has passed since that stamp. */
  lemma StaleStamp(c: Config) returns (u: State)
    requires c.Valid() && c.guardDeaths && c.window <= c.lease && c.lease + 1 < 2 * c.window
    ensures Doubled(c, FRESH, u, 2, 3)
  {
    StartIs(c);
    hide Reached, Init, Windows;
    var a := LateOwner(c);
    StillInTime(c, a);
    var b := Wait(c, FRESH, a, c.lease);
    var e := TakesOver(c, b);
    u := Enters(c, FRESH, e, 2, c.window - 1, 0);
    Inside(u, 2, 3, OwnerJson, Claim(Token(3, 0)), Token(2, 0), Token(3, 0), 1, 1);
  }

  lemma StillInTime(c: Config, t: State)
    requires c.lease + 1 < 2 * c.window && |t.procs| == 4 && !t.Alive(0) && !t.Alive(1)
    requires At(t, 2, Stamp(0, c.window - 1), 0) && At(t, 3, Idle, 0)
    ensures Windows(c, t.(now := c.lease))
  {
  }

  /** Process 3 reclaims the guard of process 1. */
  lemma TakesOver(c: Config, t: State) returns (u: State)
    requires c.Valid() && Reached(c, FRESH, t) && At(t, 3, Idle, 0) && OneOwner(t)
    requires t.dir.owner.value.owner == Some(Owner(Token(1, 0), 0)) && t.now == c.lease && !t.Alive(1)
    ensures Reached(c, FRESH, u) && u.lock == t.lock && u.now == t.now && u.dir.Dir? && u.dir.owner.None?
    ensures u.procs == t.procs[3 := Proc(true, InGuard(Claim(Token(3, 0)), Token(3, 0), ProbeLock(None)), 1)]
  {
    hide Reached;
    var a := Reclaimer(c, FRESH, t, 3, 0);
    Overwritten(t, Token(3, 0));
    u := Claims(c, FRESH, a, 3, c.lease, Token(3, 0), t.dir.owner.value.(author := 3), 1);
  }

  /** Process 1 has died with an owner.json stamped at 0 and created at the end of its window;
      process 2 saw the guard empty before that. */
  lemma LateOwner(c: Config) returns (u: State)
    requires c.Valid() && c.guardDeaths && c.window > 1
    ensures Reached(c, FRESH, u) && u.lock == FRESH.lock && u.now == c.window - 1
    ensures u.dir == Dir(Some(File(1, c.window - 1, c.window - 1, Some(Owner(Token(1, 0), 0)))), map[], c.window - 1)
    ensures |u.procs| == 4 && !u.Alive(0) && !u.Alive(1) && At(u, 2, Stamp(0, c.window - 1), 0) && At(u, 3, Idle, 0)
  {
    var s, owner := FRESH, Owner(Token(1, 0), 0);
    var a := LateStamp(c);
    hide Reached;
    assert a.dir.Entries() == {};
    var e := MakesDir(c, s, a, 2, 0);
    var f := Creates(c, s, e, 1, 0, owner, 1);
    var g := Writes(c, s, f, 1, 0, owner, 1);
    u := Die(c, s, g, 1);
  }

  lemma LateStamp(c: Config) returns (u: State)
    requires c.Valid() && c.window > 1
    ensures Reached(c, FRESH, u) && u.lock == FRESH.lock && u.now == c.window - 1 && u.dir == Dir(None, map[], 0)
    ensures u.procs == FRESH.procs[1 := Proc(true, Create(0, 0, Owner(Token(1, 0), 0)), 1)]
  {
    StartIs(c);
    hide Init;
    var a := MakesDir(c, FRESH, FRESH, 1, 0);
    var b := Stamps(c, FRESH, a, 1, 0, 0);
    u := Wait(c, FRESH, b, c.window - 1);
  }

  /** A lease shorter than two windows, and no death inside a guard: process 2 sees the owner.json
      of process 1 unfinished at first, then finished; process 1 leaves and dies, process 3 creates
      its own, and process 2 renames that one. */
  lemma OldSight(c: Config) returns (u: State)
    requires c.Valid() && !c.atomicReclaim && c.window <= c.lease && c.lease + 1 < 2 * c.window
    ensures Doubled(c, FRESH, u, 2, 3)
  {
    StartIs(c);
    var first, view, late := Incomplete(OwnerJson, 0), Owned(OwnerJson, Owner(Token(1, 0), 0)), c.window - 1;
    var a := SeenTwice(c);
    hide Reached, Init;
    var b := Replaced(c, a);
    assert SameGuard(first, view);
    var d := Decides(c, FRESH, b, 2, late, first, view, 0);
    var e := Renames(c, FRESH, d, 2, Probe(0, late, Some(first)), 0);
    Overwritten(d, Token(2, 0));
    u := Claims(c, FRESH, e, 2, late, Token(2, 0), d.dir.owner.value.(author := 2), 1);
    Inside(u, 2, 3, Claim(Token(2, 0)), OwnerJson, Token(2, 0), Token(3, 0), 1, 1);
  }

  /** Process 2 has seen owner.json unfinished, and a lease after its creation finished. */
  lemma SeenTwice(c: Config) returns (u: State)
    requires c.Valid() && !c.atomicReclaim && c.window <= c.lease && c.lease + 1 < 2 * c.window
    ensures Reached(c, FRESH, u) && u.lock == FRESH.lock && u.now == c.lease
    ensures u.dir.Has(OwnerJson) && u.dir.Entries() == {OwnerJson}
              && u.dir.owner.value.owner == Some(Owner(Token(1, 0), 0))
    ensures |u.procs| == 4 && !u.Alive(0) && At(u, 1, InGuard(OwnerJson, Token(1, 0), ProbeLock(None)), 1)
              && At(u, 3, Idle, 0)
    ensures At(u, 2, CheckEntry(Probe(0, c.window - 1, Some(Incomplete(OwnerJson, 0))),
              Owned(OwnerJson, Owner(Token(1, 0), 0))), 0)
  {
    var s, late := FRESH, c.window - 1;
    var a := HalfWritten(c);
    var b := Wait(c, s, a, late);
    var d := Comes(c, s, b, 2, 0);
    var e := Writes(c, s, d, 1, 0, Owner(Token(1, 0), 0), 1);
    var f := Wait(c, s, e, c.lease);
    hide Reached;
    u := LooksAgain(c, s, f, 2, late, Incomplete(OwnerJson, 0), 0);
    assert u.dir.Entries() == {OwnerJson};
  }

  /** Process 1 leaves the guard and dies; process 3 enters. */
  lemma Replaced(c: Config, t: State) returns (u: State)
    requires c.Valid() && Reached(c, FRESH, t) && t.lock == FRESH.lock
    requires t.dir.Has(OwnerJson) && t.dir.Entries() == {OwnerJson}
              && t.dir.owner.value.owner == Some(Owner(Token(1, 0), 0))
    requires |t.procs| == 4 && At(t, 1, InGuard(OwnerJson, Token(1, 0), ProbeLock(None)), 1) && At(t, 3, Idle, 0)
    ensures Reached(c, FRESH, u) && u.lock == t.lock && u.now == t.now && OneOwner(u) && |u.procs| == 4
    ensures u.procs[0] == t.procs[0] && u.procs[2] == t.procs[2] && !u.Alive(1)
    ensures At(u, 3, InGuard(OwnerJson, Token(3, 0), ProbeLock(None)), 1)
  {
    hide Reached;
    var a := GivesUp(c, FRESH, t, 1, OwnerJson, Token(1, 0), LEFT_LOCK, 1);
    var b := Die(c, FRESH, a, 1);
    var d := MakesDir(c, FRESH, b, 3, 0);
    u := Enters(c, FRESH, d, 3, t.now, 0);
  }

  // ---------------------------------------------------------------- the exact settings

  /** In every state of every run at most one live process has a handle. */
  ghost predicate Excludes(c: Config) {
    forall run: seq<State>, i: nat | IsRun(c, run) && i < |run| :: OneHolder(run[i])
  }

  ghost predicate OneHolder(s: State) {
    forall p: nat, q: nat | p < |s.procs| && q < |s.procs| ::
      s.Alive(p) && s.Alive(q) && Holds(s.procs[p].pc) && Holds(s.procs[q].pc) ==> p == q
  }

  /** Two live processes hold the lock, wherever it is not safe. */
  lemma TwoHolders(c: Config) returns (s: State, u: State, p: nat, q: nat)
    requires c.Valid() && !c.Safe()
    ensures Init(c, s) && Reached(c, s, u) && p != q && u.Alive(p) && u.Alive(q)
    ensures Holds(u.procs[p].pc) && Holds(u.procs[q].pc)
  {
    hide Init, Reached, BothInside, StaleLock;
    var t;
    if c.window > c.lease {
      t := LongWindow(c);
      s, p, q := FRESH, 1, 2;
    } else if c.guardDeaths && !c.atomicReclaim {
      t := TornReclaim(c);
      s, p, q := Abandoned(c), 1, 2;
    } else if c.guardDeaths {
      t := StaleStamp(c);
      s, p, q := FRESH, 2, 3;
    } else {
      t := OldSight(c);
      s, p, q := FRESH, 2, 3;
    }
    u := BothGrab(c, s, t, p, q, LEFT_LOCK);
  }

  /** The lock excludes exactly where a window is no longer than a lease, deaths inside the guard
      do not meet a reclaim in two steps, and two windows fit into a lease unless nobody dies
      inside the guard and the reclaim is one step. */
  lemma ExcludesExactlyWhen(c: Config)
    requires c.Valid()
    ensures Excludes(c)
            <==> c.window <= c.lease
                 && (c.guardDeaths ==> c.atomicReclaim)
                 && (c.guardDeaths || !c.atomicReclaim ==> 2 * c.window <= c.lease + 1)
  {
    if c.Safe() {
      forall run: seq<State>, i: nat | IsRun(c, run) && i < |run| ensures OneHolder(run[i]) {
        SafeExcludes(c, run, i);
      }
    } else {
      var s, u, p, q := TwoHolders(c);
      Unsafe(c, s, u, p, q);
    }
  }

  lemma SafeExcludes(c: Config, run: seq<State>, i: nat)
    requires c.Safe() && IsRun(c, run) && i < |run|
    ensures OneHolder(run[i])
  {
    hide IsRun;
    var s := run[i];
    forall p: nat, q: nat | p < |s.procs| && q < |s.procs| && s.Alive(p) && s.Alive(q)
                            && Holds(s.procs[p].pc) && Holds(s.procs[q].pc) ensures p == q {
      MutualExclusion(c, run, i, p, q);
    }
  }

  lemma Unsafe(c: Config, s: State, u: State, p: nat, q: nat)
    requires c.window > 0 && Init(c, s) && Reached(c, s, u) && p != q && u.Alive(p) && u.Alive(q)
    requires Holds(u.procs[p].pc) && Holds(u.procs[q].pc)
    ensures !Excludes(c)
  {
    hide Next;
    var run :| Path(c, run, s, u);
    InitCalm(c, s);
    assert IsRun(c, run);
    assert !OneHolder(run[|run| - 1]);
  }

  lemma InitCalm(c: Config, s: State)
    requires Init(c, s)
    ensures Windows(c, s)
  {
  }
}
