/** The lease-based file lock of createJobOperationLock, as a transition system.

    One lock name is modelled: its canonical lock file, its guard directory
    (`<name>.lock.reclaim`), a clock, and any number of processes that acquire, use and
    release the lock. Every file operation of the code is one step, so any two processes
    can interleave between any two file operations. Reading the clock and asking whether a
    process is alive happen in steps of their own, after the file operations they judge.

    The two assumptions that depend on time or on the platform are explicit:
    `Windows` bounds how long a live process stays between looking at the guard and
    finishing the guard file it creates, and `MayConflict`/`Passes` let the process probe
    err only towards calling a dead process alive. Tokens carry the process that drew
    them, so two processes never draw the same one.
 */
module OperationLock {
  import opened Options

  const MAX_ACQUIRE_ATTEMPTS: nat := 8

  datatype Token = Token(pid: nat, serial: nat)

  /** The JSON document of a lock or guard file; `token.pid` is the recorded pid. */
  datatype Owner = Owner(token: Token, heartbeatAt: int)

  /** A file: the process that put it under its present name, when it was created and last
      written, and its document once that has been written out in full. */
  datatype File = File(author: nat, createdAt: int, modifiedAt: int, owner: Option<Owner>)

  /** Names inside the guard directory. */
  datatype Entry = OwnerJson | Claim(token: Token)

  datatype Dir = NoDir | Dir(owner: Option<File>, claims: map<Token, File>, modifiedAt: int)
  {
    predicate Has(e: Entry) {
      Dir? && match e case OwnerJson => owner.Some? case Claim(t) => t in claims
    }

    function At(e: Entry): File
      requires Has(e)
    {
      match e case OwnerJson => owner.value case Claim(t) => claims[t]
    }

    function Entries(): set<Entry> {
      if NoDir? then {}
      else (if owner.Some? then {OwnerJson} else {}) + (set t | t in claims :: Claim(t))
    }

    function With(e: Entry, f: File, now: int): Dir
      requires Dir?
    {
      match e
      case OwnerJson => Dir(Some(f), claims, now)
      case Claim(t) => Dir(owner, claims[t := f], now)
    }

    function Without(e: Entry, now: int): Dir {
      if !Has(e) then this else
      match e
      case OwnerJson => Dir(None, claims, now)
      case Claim(t) => Dir(owner, claims - {t}, now)
    }
  }

  /** What inspectGuard makes of the directory's only entry. */
  datatype GuardView = Incomplete(entry: Entry, lastActivity: int) | Owned(entry: Entry, owner: Owner)
  {
    function LastActivity(): int {
      if Incomplete? then lastActivity else owner.heartbeatAt
    }
  }

  /** What inspectLock makes of the lock file. */
  datatype LockView = LockIncomplete(lastActivity: int) | LockOwned(owner: Owner)
  {
    function LastActivity(): int {
      if LockIncomplete? then lastActivity else owner.heartbeatAt
    }
  }

  /** One attempt of acquireGuard: its number, the time of its first directory listing, and
      the result of its first inspection once the second one has begun. */
  datatype Probe = Probe(attempt: nat, since: int, first: Option<GuardView>)

  /** Inside the guard: acquire's look at the canonical lock and its creation. */
  datatype LockPC =
    | ProbeLock(first: Option<LockView>)
    | StatLock(first: Option<LockView>)
    | ReadLock(first: Option<LockView>, modifiedAt: int)
    | CheckLock(first: Option<LockView>, view: LockView)
    | UnlinkLock
    | StampLock
    | CreateLock(owner: Owner)
    | WriteLock(owner: Owner)
    | CleanLock

  datatype LeavePC = ReadMine | UnlinkMine | RemoveDir

  /** What the holder of a handle is doing with it. */
  datatype Duty = Rest | Assert | Beat | Replace(beat: Owner) | Drop

  /** readOwnedFile (two stats and a read), then what the duty does with the file. */
  datatype Stage = ProbeOwned | StatOwned | ReadOwned | Apply

  /** assertAvailable: one inspectLock, and what it makes of it. */
  datatype LookPC = LookProbe | LookStat | LookRead(modifiedAt: int) | LookCheck(view: LockView)

  datatype PC =
    | Idle
    | MakeDir(attempt: nat)
    | ListDir(probe: Probe)
    | StatDir(probe: Probe, entries: set<Entry>)
    | StatEntry(probe: Probe, entry: Entry, lastActivity: int)
    | ReadEntry(probe: Probe, entry: Entry, lastActivity: int)
    | CheckEntry(probe: Probe, view: GuardView)
    | Act(probe: Probe, entry: Entry)
    | Reclaim(probe: Probe)
    | Stamp(attempt: nat, since: int)
    | Create(attempt: nat, since: int, owner: Owner)
    | WriteOwner(since: int, owner: Owner)
    | CleanOwner(since: int)
    | StampClaim(since: int, token: Token)
    | OpenClaim(since: int, owner: Owner)
    | WriteClaim(since: int, owner: Owner)
    | InGuard(mine: Entry, token: Token, lockStep: LockPC)
    | LeaveGuard(mine: Entry, token: Token, leaveStep: LeavePC, handle: Option<Token>)
    | Owning(token: Token, duty: Duty, stage: Stage)
    | Refused(token: Token)
    | Peek(look: LookPC)
    | Available

  datatype Proc = Proc(alive: bool, pc: PC, serial: nat)

  datatype State = State(now: int, dir: Dir, lock: Option<File>, procs: seq<Proc>)
  {
    predicate Alive(pid: nat) {
      pid < |procs| && procs[pid].alive
    }
  }

  /** `leaseMs`; the bound on a live process's windows; whether acquireGuard's second
      inspection and the rename or unlink that follows it are one step; and whether processes
      may die while they hold a guard file. */
  datatype Config = Config(lease: int, window: int, atomicReclaim: bool, guardDeaths: bool)
  {
    predicate Valid() {
      0 < window && 0 < lease
    }

    /** The settings in which the lock excludes. */
    predicate Safe() {
      Valid() && window <= lease && (guardDeaths ==> atomicReclaim)
      && (guardDeaths || !atomicReclaim ==> 2 * window <= lease + 1)
    }
  }

  // ---------------------------------------------------------------- requireReclaimable

  predicate Passes(c: Config, s: State, lastActivity: int, owner: Option<Owner>) {
    s.now - lastActivity >= c.lease && (owner.Some? ==> !s.Alive(owner.value.token.pid))
  }

  /** A recorded process may be taken for alive even when it is not. */
  predicate MayConflict(c: Config, s: State, lastActivity: int, owner: Option<Owner>) {
    s.now - lastActivity < c.lease || owner.Some?
  }

  function GuardOwner(v: GuardView): Option<Owner> {
    if v.Owned? then Some(v.owner) else None
  }

  function LockOwner(v: LockView): Option<Owner> {
    if v.LockOwned? then Some(v.owner) else None
  }

  /** The comparison of the two inspections before anything is renamed or removed. */
  predicate SameGuard(first: GuardView, second: GuardView) {
    && first.entry == second.entry
    && (first.Owned? ==> second.Owned? && second.owner.token == first.owner.token)
  }

  predicate SameLock(first: LockView, second: LockView) {
    first.LockOwned? ==> second.LockOwned? && second.owner.token == first.owner.token
  }

  // ---------------------------------------------------------------- steps

  ghost predicate Moves(s: State, s': State, p: nat, dir: Dir, lock: Option<File>, pc: PC)
    requires p < |s.procs|
  {
    s' == State(s.now, dir, lock, s.procs[p := Proc(true, pc, s.procs[p].serial)])
  }

  /** A step that also draws a token. */
  ghost predicate Draws(s: State, s': State, p: nat, dir: Dir, pc: PC)
    requires p < |s.procs|
  {
    s' == State(s.now, dir, s.lock, s.procs[p := Proc(true, pc, s.procs[p].serial + 1)])
  }

  function Retry(attempt: nat): PC {
    if attempt + 1 < MAX_ACQUIRE_ATTEMPTS then MakeDir(attempt + 1) else Idle
  }

  function Max(a: int, b: int): int {
    if a < b then b else a
  }

  function ViewOf(dir: Dir, e: Entry, lastActivity: int): GuardView {
    if dir.Has(e) && dir.At(e).owner.Some? && (e.Claim? ==> dir.At(e).owner.value.token == e.token)
    then Owned(e, dir.At(e).owner.value)
    else Incomplete(e, lastActivity)
  }

  /** A whole inspectGuard of a directory with one entry, for the atomic reclaim. */
  function Inspect(dir: Dir, e: Entry): GuardView
    requires dir.Has(e)
  {
    ViewOf(dir, e, Max(dir.modifiedAt, dir.At(e).modifiedAt))
  }

  /** Unlink a stale claim, or rename a stale owner.json to a claim of one's own. */
  ghost predicate ActStep(s: State, s': State, p: nat, probe: Probe, e: Entry)
    requires p < |s.procs|
  {
    match e
    case Claim(_) => Moves(s, s', p, s.dir.Without(e, s.now), s.lock, Retry(probe.attempt))
    case OwnerJson =>
      if s.dir.Has(OwnerJson) then
        var token := Token(p, s.procs[p].serial);
        var moved := s.dir.owner.value.(author := p);
        Draws(s, s', p, Dir(None, s.dir.claims[token := moved], s.now), StampClaim(probe.since, token))
      else Moves(s, s', p, s.dir, s.lock, Retry(probe.attempt))
  }

  /** acquireGuard up to the decision what to do with the guard directory. */
  ghost predicate InspectStep(c: Config, s: State, s': State, p: nat)
    requires p < |s.procs|
  {
    match s.procs[p].pc
    case Idle => Moves(s, s', p, s.dir, s.lock, MakeDir(0))
    case MakeDir(a) =>
      Moves(s, s', p, if s.dir.NoDir? then Dir(None, map[], s.now) else s.dir, s.lock, ListDir(Probe(a, s.now, None)))
    case ListDir(probe) =>
      var probe' := if probe.first.None? then probe.(since := s.now) else probe;
      Moves(s, s', p, s.dir, s.lock,
            if s.dir.NoDir? then Retry(probe.attempt) else StatDir(probe', s.dir.Entries()))
    case StatDir(probe, entries) =>
      || (s.dir.NoDir? && Moves(s, s', p, s.dir, s.lock, Idle))
      || (s.dir.Dir? && entries == {} && Moves(s, s', p, s.dir, s.lock,
            if probe.first.None? then Stamp(probe.attempt, probe.since) else Retry(probe.attempt)))
      || (s.dir.Dir? && exists e ::
            entries == {e} && Moves(s, s', p, s.dir, s.lock, StatEntry(probe, e, s.dir.modifiedAt)))
      || (s.dir.Dir? && |entries| > 1 && Moves(s, s', p, s.dir, s.lock, Idle))
    case StatEntry(probe, e, last) =>
      Moves(s, s', p, s.dir, s.lock,
            ReadEntry(probe, e, if s.dir.Has(e) then Max(last, s.dir.At(e).modifiedAt) else last))
    case ReadEntry(probe, e, last) =>
      Moves(s, s', p, s.dir, s.lock, CheckEntry(probe, ViewOf(s.dir, e, last)))
    case CheckEntry(probe, view) =>
      || (MayConflict(c, s, view.LastActivity(), GuardOwner(view)) && Moves(s, s', p, s.dir, s.lock, Idle))
      || (Passes(c, s, view.LastActivity(), GuardOwner(view)) &&
          Moves(s, s', p, s.dir, s.lock,
                match probe.first
                case None =>
                  var again := probe.(first := Some(view));
                  if c.atomicReclaim then Reclaim(again) else ListDir(again)
                case Some(first) => if SameGuard(first, view) then Act(probe, view.entry) else Idle))
    case Act(probe, e) => ActStep(s, s', p, probe, e)
    case Reclaim(probe) => probe.first.Some? && ReclaimStep(c, s, s', p, probe)
    case _ => false
  }

  ghost predicate ReclaimStep(c: Config, s: State, s': State, p: nat, probe: Probe)
    requires p < |s.procs| && probe.first.Some?
  {
    var entries := s.dir.Entries();
    || (entries == {} && Moves(s, s', p, s.dir, s.lock, Retry(probe.attempt)))
    || (|entries| > 1 && Moves(s, s', p, s.dir, s.lock, Idle))
    || (exists e :: entries == {e} && s.dir.Has(e) && ReclaimEntry(c, s, s', p, probe, e))
  }

  ghost predicate ReclaimEntry(c: Config, s: State, s': State, p: nat, probe: Probe, e: Entry)
    requires p < |s.procs| && probe.first.Some? && s.dir.Has(e)
  {
    var view := Inspect(s.dir, e);
    || (MayConflict(c, s, view.LastActivity(), GuardOwner(view)) && Moves(s, s', p, s.dir, s.lock, Idle))
    || (Passes(c, s, view.LastActivity(), GuardOwner(view)) &&
        if SameGuard(probe.first.value, view) then ActStep(s, s', p, probe, e)
        else Moves(s, s', p, s.dir, s.lock, Idle))
  }

  /** Creating owner.json, or writing the claim, until the guard is taken. */
  ghost predicate TakeStep(s: State, s': State, p: nat)
    requires p < |s.procs|
  {
    match s.procs[p].pc
    case Stamp(a, since) =>
      Draws(s, s', p, s.dir, Create(a, since, Owner(Token(p, s.procs[p].serial), s.now)))
    case Create(a, since, owner) =>
      if s.dir.NoDir? || s.dir.Has(OwnerJson) then Moves(s, s', p, s.dir, s.lock, Retry(a))
      else Moves(s, s', p, s.dir.With(OwnerJson, File(p, s.now, s.now, None), s.now), s.lock, WriteOwner(since, owner))
    case WriteOwner(since, owner) =>
      || Moves(s, s', p, Written(s.dir, OwnerJson, p, owner, s.now), s.lock,
               InGuard(OwnerJson, owner.token, ProbeLock(None)))
      || Moves(s, s', p, s.dir, s.lock, CleanOwner(since))
    case CleanOwner(_) => Moves(s, s', p, s.dir.Without(OwnerJson, s.now), s.lock, Idle)
    case StampClaim(since, token) => Moves(s, s', p, s.dir, s.lock, OpenClaim(since, Owner(token, s.now)))
    case OpenClaim(since, owner) =>
      var e := Claim(owner.token);
      if s.dir.NoDir? then Moves(s, s', p, s.dir, s.lock, Idle)
      else if s.dir.Has(e) then
        // Truncating an existing file leaves the directory's own time alone.
        Moves(s, s', p, s.dir.With(e, s.dir.At(e).(modifiedAt := s.now, owner := None), s.dir.modifiedAt), s.lock,
              WriteClaim(since, owner))
      else Moves(s, s', p, s.dir.With(e, File(p, s.now, s.now, None), s.now), s.lock, WriteClaim(since, owner))
    case WriteClaim(since, owner) =>
      || Moves(s, s', p, Written(s.dir, Claim(owner.token), p, owner, s.now), s.lock,
               InGuard(Claim(owner.token), owner.token, ProbeLock(None)))
      || Moves(s, s', p, s.dir, s.lock, Idle)
    case _ => false
  }

  /** Writing goes to the open descriptor: it reaches the entry only if that is still p's file. */
  function Written(dir: Dir, e: Entry, p: nat, owner: Owner, now: int): Dir {
    if dir.Has(e) && dir.At(e).author == p
    then dir.With(e, dir.At(e).(modifiedAt := now, owner := Some(owner)), dir.modifiedAt)
    else dir
  }

  /** acquire's guarded section on the canonical lock file. */
  ghost predicate LockStep(c: Config, s: State, s': State, p: nat)
    requires p < |s.procs| && s.procs[p].pc.InGuard?
  {
    var pc := s.procs[p].pc;
    var give := LeaveGuard(pc.mine, pc.token, ReadMine, None);
    match pc.lockStep
    case ProbeLock(first) =>
      Moves(s, s', p, s.dir, s.lock, pc.(lockStep := if s.lock.None? then StampLock else StatLock(first)))
    case StatLock(first) =>
      Moves(s, s', p, s.dir, s.lock,
            pc.(lockStep := if s.lock.None? then StampLock else ReadLock(first, s.lock.value.modifiedAt)))
    case ReadLock(first, modified) =>
      var view := if s.lock.Some? && s.lock.value.owner.Some?
                  then LockOwned(s.lock.value.owner.value) else LockIncomplete(modified);
      Moves(s, s', p, s.dir, s.lock, pc.(lockStep := CheckLock(first, view)))
    case CheckLock(first, view) =>
      || (MayConflict(c, s, view.LastActivity(), LockOwner(view)) && Moves(s, s', p, s.dir, s.lock, give))
      || (Passes(c, s, view.LastActivity(), LockOwner(view)) &&
          Moves(s, s', p, s.dir, s.lock,
                match first
                case None => pc.(lockStep := ProbeLock(Some(view)))
                case Some(before) => if SameLock(before, view) then pc.(lockStep := UnlinkLock) else give))
    case UnlinkLock => Moves(s, s', p, s.dir, None, pc.(lockStep := StampLock))
    case StampLock =>
      Draws(s, s', p, s.dir, pc.(lockStep := CreateLock(Owner(Token(p, s.procs[p].serial), s.now))))
    case CreateLock(owner) =>
      if s.lock.Some? then Moves(s, s', p, s.dir, s.lock, give)
      else Moves(s, s', p, s.dir, Some(File(p, s.now, s.now, None)), pc.(lockStep := WriteLock(owner)))
    case WriteLock(owner) =>
      || Moves(s, s', p, s.dir, Filled(s.lock, p, owner, s.now),
               LeaveGuard(pc.mine, pc.token, ReadMine, Some(owner.token)))
      || Moves(s, s', p, s.dir, s.lock, pc.(lockStep := CleanLock))
    case CleanLock => Moves(s, s', p, s.dir, None, give)
  }

  function Filled(lock: Option<File>, p: nat, owner: Owner, now: int): Option<File> {
    if lock.Some? && lock.value.author == p then Some(lock.value.(modifiedAt := now, owner := Some(owner))) else lock
  }

  /** releaseGuard: read, unlink, rmdir; each failure ends it quietly. */
  ghost predicate LeaveStep(s: State, s': State, p: nat)
    requires p < |s.procs| && s.procs[p].pc.LeaveGuard?
  {
    var pc := s.procs[p].pc;
    var over := if pc.handle.Some? then Owning(pc.handle.value, Rest, Apply) else Idle;
    match pc.leaveStep
    case ReadMine =>
      var match' := s.dir.Has(pc.mine) && s.dir.At(pc.mine).owner.Some?
          && s.dir.At(pc.mine).owner.value.token == pc.token;
      Moves(s, s', p, s.dir, s.lock, if match' then pc.(leaveStep := UnlinkMine) else over)
    case UnlinkMine =>
      Moves(s, s', p, s.dir.Without(pc.mine, s.now), s.lock,
            if s.dir.Has(pc.mine) then pc.(leaveStep := RemoveDir) else over)
    case RemoveDir =>
      Moves(s, s', p, if s.dir.Entries() == {} then NoDir else s.dir, s.lock, over)
  }

  /** assertOwned, the heartbeat and release of a handle. */
  ghost predicate OwnStep(s: State, s': State, p: nat)
    requires p < |s.procs| && s.procs[p].pc.Owning?
  {
    var pc := s.procs[p].pc;
    var refused := match pc.duty
                   case Assert => Refused(pc.token)
                   case Drop => Idle
                   case _ => pc.(duty := Rest, stage := Apply);
    if pc.duty.Rest? then
      exists d: Duty :: (d.Assert? || d.Beat? || d.Drop?) &&
        Moves(s, s', p, s.dir, s.lock, pc.(duty := d, stage := ProbeOwned))
    else match pc.stage
      case ProbeOwned => Moves(s, s', p, s.dir, s.lock, if s.lock.Some? then pc.(stage := StatOwned) else refused)
      case StatOwned => Moves(s, s', p, s.dir, s.lock, if s.lock.Some? then pc.(stage := ReadOwned) else refused)
      case ReadOwned =>
        Moves(s, s', p, s.dir, s.lock, if Owns(s.lock, pc.token) then pc.(stage := Apply) else refused)
      case Apply =>
        match pc.duty
        case Beat => Moves(s, s', p, s.dir, s.lock, pc.(duty := Replace(Owner(pc.token, s.now)), stage := ProbeOwned))
        case Replace(beat) =>
          Moves(s, s', p, s.dir, Some(File(p, s.now, s.now, Some(beat))), pc.(duty := Rest, stage := Apply))
        case Drop => Moves(s, s', p, s.dir, None, Idle)
        case Assert => Moves(s, s', p, s.dir, s.lock, pc.(duty := Rest, stage := Apply))
        case Rest => false
  }

  predicate Owns(lock: Option<File>, token: Token) {
    lock.Some? && lock.value.owner.Some? && lock.value.owner.value.token == token
  }

  /** assertAvailable passes on a missing lock, and on one that requireReclaimable lets pass. */
  ghost predicate PeekStep(c: Config, s: State, s': State, p: nat)
    requires p < |s.procs|
  {
    match s.procs[p].pc
    case Idle => Moves(s, s', p, s.dir, s.lock, Peek(LookProbe))
    case Peek(LookProbe) => Moves(s, s', p, s.dir, s.lock, if s.lock.None? then Available else Peek(LookStat))
    case Peek(LookStat) =>
      Moves(s, s', p, s.dir, s.lock, if s.lock.None? then Available else Peek(LookRead(s.lock.value.modifiedAt)))
    case Peek(LookRead(modified)) =>
      var view := if s.lock.Some? && s.lock.value.owner.Some?
                  then LockOwned(s.lock.value.owner.value) else LockIncomplete(modified);
      Moves(s, s', p, s.dir, s.lock, Peek(LookCheck(view)))
    case Peek(LookCheck(view)) =>
      || (MayConflict(c, s, view.LastActivity(), LockOwner(view)) && Moves(s, s', p, s.dir, s.lock, Idle))
      || (Passes(c, s, view.LastActivity(), LockOwner(view)) && Moves(s, s', p, s.dir, s.lock, Available))
    case Available => Moves(s, s', p, s.dir, s.lock, Idle)
    case _ => false
  }

  ghost predicate ProcStep(c: Config, s: State, s': State, p: nat)
    requires p < |s.procs|
  {
    match s.procs[p].pc
    case Idle => InspectStep(c, s, s', p) || PeekStep(c, s, s', p)
    case Peek(_) => PeekStep(c, s, s', p)
    case Available => PeekStep(c, s, s', p)
    case InGuard(_, _, _) => LockStep(c, s, s', p)
    case LeaveGuard(_, _, _, _) => LeaveStep(s, s', p)
    case Owning(_, _, _) => OwnStep(s, s', p)
    case Refused(_) => false
    case _ => InspectStep(c, s, s', p) || TakeStep(s, s', p)
  }

  /** The guard file a process has created or renamed and not yet removed. */
  function Mine(pc: PC): Option<Entry> {
    match pc
    case WriteOwner(_, _) => Some(OwnerJson)
    case CleanOwner(_) => Some(OwnerJson)
    case StampClaim(_, t) => Some(Claim(t))
    case OpenClaim(_, o) => Some(Claim(o.token))
    case WriteClaim(_, o) => Some(Claim(o.token))
    case InGuard(m, _, _) => Some(m)
    case LeaveGuard(m, _, RemoveDir, _) => None
    case LeaveGuard(m, _, _, _) => Some(m)
    case _ => None
  }

  /** When the process's present window opened, if it is in one. */
  function WindowSince(pc: PC): Option<int> {
    match pc
    case ListDir(probe) => if probe.first.Some? then Some(probe.since) else None
    case StatDir(probe, _) => Some(probe.since)
    case StatEntry(probe, _, _) => Some(probe.since)
    case ReadEntry(probe, _, _) => Some(probe.since)
    case CheckEntry(probe, _) => Some(probe.since)
    case Act(probe, _) => Some(probe.since)
    case Reclaim(probe) => Some(probe.since)
    case Stamp(_, since) => Some(since)
    case Create(_, since, _) => Some(since)
    case WriteOwner(since, _) => Some(since)
    case CleanOwner(since) => Some(since)
    case StampClaim(since, _) => Some(since)
    case OpenClaim(since, _) => Some(since)
    case WriteClaim(since, _) => Some(since)
    case _ => None
  }

  /** The timing assumption: no live process outstays its window. */
  ghost predicate Windows(c: Config, s: State) {
    forall p {:trigger s.procs[p]} :: 0 <= p < |s.procs| && s.procs[p].alive && WindowSince(s.procs[p].pc).Some?
      ==> s.now < WindowSince(s.procs[p].pc).value + c.window
  }

  /** Lock owners die at any time; holders of a guard file, if the setting allows it. */
  ghost predicate Dies(c: Config, s: State, s': State, p: nat) {
    && p < |s.procs| && s.procs[p].alive
    && (c.guardDeaths || Mine(s.procs[p].pc).None?)
    && s' == s.(procs := s.procs[p := s.procs[p].(alive := false)])
  }

  ghost predicate Ticks(s: State, s': State) {
    s' == s.(now := s'.now) && s.now <= s'.now
  }

  ghost predicate Acts(c: Config, s: State, s': State, p: nat) {
    p < |s.procs| && s.procs[p].alive && ProcStep(c, s, s', p)
  }

  ghost predicate Next(c: Config, s: State, s': State) {
    && Windows(c, s')
    && (Ticks(s, s') || exists p: nat :: Dies(c, s, s', p) || Acts(c, s, s', p))
  }

  /** Leftovers of earlier processes: an owner file is at most one window younger than its stamp. */
  predicate Plausible(c: Config, s: State, f: File) {
    && f.createdAt <= f.modifiedAt <= s.now
    && (f.owner.Some? ==> f.createdAt < f.owner.value.heartbeatAt + c.window)
  }

  /** Nobody is acquiring. Any lock file may have been left; where guard holders may die, so may one guard file. */
  ghost predicate Init(c: Config, s: State) {
    && (forall p :: 0 <= p < |s.procs| ==> s.procs[p].pc == Idle)
    && (s.dir.Dir? ==>
          && s.dir.modifiedAt <= s.now
          && (s.dir.Entries() == {} || (c.guardDeaths && exists e :: s.dir.Entries() == {e}))
          && (s.dir.owner.Some? ==>
                s.dir.owner.value.createdAt <= s.dir.modifiedAt && Plausible(c, s, s.dir.owner.value)))
  }

  ghost predicate IsRun(c: Config, run: seq<State>) {
    && |run| > 0 && Init(c, run[0]) && Windows(c, run[0])
    && forall i {:trigger run[i]} :: 0 <= i < |run| - 1 ==> Next(c, run[i], run[i + 1])
  }

  /** The process has a handle: from the moment its lock file is complete until release removes it. */
  predicate Holds(pc: PC) {
    pc.Owning? || (pc.LeaveGuard? && pc.handle.Some?)
  }
}
