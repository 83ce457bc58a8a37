/** What every run of module Handshake keeps, in every Mode: a Job mutation and an Interface
    mutation never work on the same Interface at once, package sessions and Job mutations never
    share a Job, and every Job whose index entry is that of its document resolves in the
    Interface store.
 */
module HandshakeProof {
  import opened Options
  import opened JobIndex
  import opened Handshake

  // ---------------------------------------------------------------- invariant

  /** The Job mutation has passed holdInterfaces for the Interface and still relies on it. */
  ghost predicate Covers(s: State, q: nat, id: Id) {
    s.Alive(q) && s.procs[q].pc.Mutate? && !s.procs[q].pc.phase.GiveBack? && id in s.procs[q].pc.held
  }

  ghost predicate Uncovered(s: State, id: Id) {
    forall q: nat :: !Covers(s, q, id)
  }

  predicate Holding(phase: JobPhase) {
    phase.Pick? || phase.CheckFirst? || phase.TakeReader? || phase.CheckSecond?
  }

  predicate Storing(phase: JobPhase) {
    phase.Validate? || phase.ClearDoc? || phase.ClearIndex? || phase.SaveDoc? || phase.SaveIndex?
  }

  /** The Interfaces of the configuration that is to be stored and of the one stored now. */
  ghost predicate Needs(pc: PC, id: Id)
    requires pc.Mutate?
  {
    || (!pc.task.DeleteJob? && id in InterfacesOf(pc.task.next.calls))
    || (pc.current.Some? && id in InterfacesOf(pc.current.value.config.calls))
  }

  predicate Pending(phase: JobPhase, id: Id) {
    match phase
    case CheckFirst(i) => i == id
    case TakeReader(i) => i == id
    case CheckSecond(i) => i == id
    case _ => false
  }

  ghost predicate AllResolve(s: State, calls: seq<MethodCall>, k: nat) {
    k <= |calls| && forall n :: 0 <= n < k ==> s.Resolves(calls[n])
  }

  /** The Job lock and every reader published so far are p's. */
  ghost predicate LocksOk(s: State, p: nat)
    requires p < |s.procs| && s.procs[p].pc.Mutate?
  {
    var pc := s.procs[p].pc;
    s.Held(JobLock(pc.task.job), p) && forall i :: i in pc.held ==> s.Held(Reader(i, pc.task.job), p)
  }

  /** The document read or saved by this operation is still the stored one. */
  ghost predicate CurrentOk(s: State, pc: PC)
    requires pc.Mutate?
  {
    match pc.task
    case CreateJob(_, _) => pc.phase.SaveIndex? || pc.current.None?
    case UpdateJob(_, _) => pc.current.Some?
    case DeleteJob(_) => false
  }

  /** What a mutation that succeeded has made of its Job. */
  ghost predicate Achieved(m: Mode, s: State, task: Task) {
    match task
    case DeleteJob(j) => j !in s.docs && (m.ls ==> j !in s.index)
    case CreateJob(j, next) => Agreed(m, s, j) && s.docs[j].config == next && next.calls != []
    case UpdateJob(j, next) => Agreed(m, s, j) && s.docs[j].config == next && next.calls != []
  }

  ghost predicate MutateOk(m: Mode, s: State, p: nat)
    requires p < |s.procs| && s.procs[p].pc.Mutate?
  {
    var pc := s.procs[p].pc;
    var job := pc.task.job;
    if pc.phase.GiveBack? then pc.phase.ok && s.Held(JobLock(job), p) ==> Achieved(m, s, pc.task)
    else if pc.phase.FenceFirst? || pc.phase.TakeJob? then pc.held == {} && pc.current.None?
    else
      && LocksOk(s, p)
      && (pc.phase.FenceSecond? || pc.phase.ReadDoc? ==> pc.held == {} && pc.current.None?)
      && (Holding(pc.phase) || Storing(pc.phase) ==>
            CurrentOk(s, pc) && (pc.current.Some? ==> job in s.docs && s.docs[job] == pc.current.value))
      && (Holding(pc.phase) ==>
            && (forall id :: Needs(pc, id) ==> id in pc.held || id in pc.todo || Pending(pc.phase, id))
            && (pc.phase.CheckSecond? ==> s.Held(Reader(pc.phase.id, job), p)))
      && (Storing(pc.phase) ==> (forall id :: Needs(pc, id) ==> id in pc.held) && ValidOk(s, pc))
      && (pc.phase.ClearDoc? || pc.phase.ClearIndex? ==> m.ls && pc.task.CreateJob?)
      && (pc.phase.ClearIndex? ==> job !in s.docs)
      && (pc.phase.SaveIndex? ==> m.ls && !pc.task.DeleteJob? && pc.current.Some?
                                  && pc.current.value.config == pc.task.next && pc.task.next.calls != [])
      && (pc.phase.Settle? ==> pc.task.CreateJob? && Achieved(m, s, pc.task))
      && (pc.phase.RemoveDoc? ==> pc.task.DeleteJob?)
      && (pc.phase.RemoveIndex? ==> m.ls && pc.task.DeleteJob? && job !in s.docs)
      && (m.ls && pc.task.CreateJob? && (pc.phase.SaveDoc? || pc.phase.SaveIndex?) ==> job !in s.index)
  }

  /** How much of the configuration is known to resolve. */
  ghost predicate ValidOk(s: State, pc: PC)
    requires pc.Mutate? && Storing(pc.phase)
  {
    match pc.phase
    case Validate(k) => !pc.task.DeleteJob? && AllResolve(s, pc.task.next.calls, k)
    case SaveIndex => pc.current.Some? ==> AllResolve(s, pc.current.value.config.calls, |pc.current.value.config.calls|)
    case _ =>
      !pc.task.DeleteJob? && pc.task.next.calls != [] && AllResolve(s, pc.task.next.calls, |pc.task.next.calls|)
  }

  /** The reference search sees the Job as it is stored. */
  ghost predicate Agreed(m: Mode, s: State, j: Job) {
    j in s.docs && (m.ls ==> j in s.index && s.index[j] == FromDocument(s.docs[j]))
  }

  /** The calls of every such Job resolve. */
  ghost predicate AgreedResolve(m: Mode, s: State) {
    forall j, k :: Agreed(m, s, j) && 0 <= k < |s.docs[j].config.calls| ==> s.Resolves(s.docs[j].config.calls[k])
  }

  /** Every such Job that refers to the Interface is among the given names. */
  ghost predicate ReferrersIn(m: Mode, s: State, id: Id, names: set<Job>) {
    forall j :: Agreed(m, s, j) && id in InterfacesOf(s.docs[j].config.calls) ==> j in names
  }

  ghost predicate CoverersIn(s: State, id: Id, names: set<Job>) {
    forall q: nat :: Covers(s, q, id) ==> s.procs[q].pc.task.job in names
  }

  /** The readers have been probed: no Job mutation relies on the Interface any more. */
  predicate PastReaders(step: GuardPhase) {
    step.ListJobs? || step.ScanJobs? || step.TakeJobs? || step.ReadStore? || step.WriteStore?
  }

  ghost predicate GuardingOk(m: Mode, s: State, p: nat)
    requires p < |s.procs| && s.procs[p].pc.Guarding?
  {
    var pc := s.procs[p].pc;
    && (!pc.step.TakeFence? && !pc.step.Leave? ==> s.Held(Mutation(pc.id), p))
    && (pc.step.ProbeReaders? ==> CoverersIn(s, pc.id, pc.left))
    && (pc.step.DropReader? ==> CoverersIn(s, pc.id, pc.left))
    && (PastReaders(pc.step) ==> Uncovered(s, pc.id))
    && (pc.step.ScanJobs? ==> ReferrersIn(m, s, pc.id, pc.left + pc.found))
    && (pc.step.ReadStore? || pc.step.WriteStore? ==> ReferrersIn(m, s, pc.id, pc.found))
    && (pc.step.WriteStore? ==> pc.id in s.store && s.store[pc.id] == pc.step.current)
    && (pc.step == Leave(true) && !pc.change.Remove? && s.Held(Mutation(pc.id), p) ==>
          pc.id in s.store && s.store[pc.id] == pc.change.next)
  }

  ghost predicate SessionOk(s: State, p: nat)
    requires p < |s.procs| && s.procs[p].pc.Session?
  {
    var pc := s.procs[p].pc;
    && (forall j :: s.Held(JobLock(j), p) ==> j in pc.handles)
    && (pc.state.Enter? ==> pc.handles == {})
    && (pc.state.Open? || pc.handles != {} ==> s.Held(Fence, p))
    && (pc.state.Open? ==> forall j :: j in pc.handles ==> s.Held(JobLock(j), p))
    && (pc.state.Closing? ==> pc.state.todo <= pc.handles)
  }

  ghost predicate ProcOk(m: Mode, s: State, p: nat)
    requires p < |s.procs|
  {
    match s.procs[p].pc
    case Mutate(_, _, _, _, _, _) => MutateOk(m, s, p)
    case Guarding(_, _, _, _, _, _) => GuardingOk(m, s, p)
    case Session(_, _) => SessionOk(s, p)
    case Done => true
  }

  /** A live update has saved the Job's document and is about to write its index. */
  ghost predicate BeingSaved(s: State, j: Job) {
    && JobLock(j) in s.locks && s.Alive(s.locks[JobLock(j)])
    && Saving(s.procs[s.locks[JobLock(j)]].pc) && s.procs[s.locks[JobLock(j)]].pc.task.job == j
  }

  /** The index entry of the Job, if there is one, is that of its document or about to be. */
  ghost predicate Fits(s: State, j: Job) {
    j in s.docs && j in s.index ==> s.index[j] == FromDocument(s.docs[j]) || BeingSaved(s, j)
  }

  /** An update of the Job ends between its two writes, while the index entry differs from the
      document: its process dies or fails to write the index. */
  ghost predicate Loses(s: State, s': State, j: Job) {
    BeingSaved(s, j) && j in s.docs && j in s.index && s.index[j] != FromDocument(s.docs[j])
    && (var q := s.locks[JobLock(j)];
        s' == s.(procs := s.procs[q := s.procs[q].(alive := false)])
        || s' == s.(procs := s.procs[q := Proc(true, s.procs[q].pc.(phase := GiveBack(false)))]))
  }

  /** What the step does not lose still fits; without faults it loses nothing. */
  ghost predicate FitKept(m: Mode, s: State, s': State, j: Job) {
    m.ls && Fits(s, j) && (m.indexFaults ==> !Loses(s, s', j)) ==> Fits(s', j)
  }

  ghost predicate Procs(m: Mode, s: State) {
    forall p {:trigger s.procs[p]} :: 0 <= p < |s.procs| && s.procs[p].alive ==> ProcOk(m, s, p)
  }

  ghost predicate Inv(m: Mode, s: State) {
    AgreedResolve(m, s) && Procs(m, s)
  }

  ghost predicate Keeps(m: Mode, s: State, s': State) {
    Inv(m, s') && forall j :: FitKept(m, s, s', j)
  }

  lemma InitInv(m: Mode, s: State)
    requires Init(m, s)
    ensures Inv(m, s)
  {
    forall p | 0 <= p < |s.procs| && s.procs[p].alive ensures ProcOk(m, s, p) {
      assert Starting(s.procs[p].pc);
    }
  }

  /* Lemmas are named for what they keep: a step is `Quiet` if it writes no file; `Self` lemmas keep
     the part of the invariant that belongs to the process that moves; `Well` lemmas say that what a
     step writes to a Job's files is fit to be there; `AddsNone` lemmas that it stores no document;
     `Frame` and `Other` lemmas keep the parts of the other processes; `Keeps` lemmas put these
     together. Where a step has many phases there is one lemma for each few of them. */

  // ---------------------------------------------------------------- frames

  ghost predicate Only(s: State, s': State, p: nat) {
    && s.Alive(p) && |s'.procs| == |s.procs| && s'.Alive(p)
    && forall q :: 0 <= q < |s.procs| && q != p ==> s'.procs[q] == s.procs[q]
  }

  /** p takes a lock it may take, or gives one of its own back, or leaves the locks alone. */
  ghost predicate LocksMove(s: State, s': State, p: nat) {
    || s'.locks == s.locks
    || (exists n :: s.CanTake(n) && s'.locks == s.locks[n := p])
    || (exists n :: s.Held(n, p) && s'.locks == s.locks - {n})
  }

  /** The lock facts about q survive whatever p does to the locks. */
  lemma LocksKept(s: State, s': State, p: nat, q: nat)
    requires Only(s, s', p) && LocksMove(s, s', p) && q != p && s.Alive(q)
    ensures forall n :: s.Held(n, q) ==> s'.Held(n, q)
    ensures forall n :: s'.Held(n, q) ==> s.Held(n, q)
  {
  }

  /** What p newly relies on, it relies on because it saw the Interface free. */
  ghost predicate CoversMore(s: State, s': State, p: nat) {
    forall id :: Covers(s', p, id) && !Covers(s, p, id) ==> s.CanTake(Mutation(id))
  }

  ghost predicate SameJob(s: State, s': State, p: nat) {
    p < |s.procs| && p < |s'.procs| &&
    (s.procs[p].pc.Mutate? && s'.procs[p].pc.Mutate? ==> s'.procs[p].pc.task == s.procs[p].pc.task)
    && (s'.procs[p].pc.Mutate? ==> s.procs[p].pc.Mutate?)
  }

  /** The shape of a step that writes no file. */
  ghost predicate QuietStep(s: State, s': State, p: nat) {
    && Only(s, s', p) && LocksMove(s, s', p) && SameJob(s, s', p) && CoversMore(s, s', p)
    && s'.docs == s.docs && s'.index == s.index && s'.store == s.store && !Saving(s.procs[p].pc)
  }

  /** Steps that touch no file. */
  lemma LockFrame(m: Mode, s: State, s': State, p: nat, q: nat)
    requires Inv(m, s) && QuietStep(s, s', p)
    requires q != p && s.Alive(q)
    ensures ProcOk(m, s', q)
  {
    hide GuardingOk;
    assert s.procs[q].alive && ProcOk(m, s, q) && s'.procs[q] == s.procs[q];
    if s.procs[q].pc.Guarding? { LockFrameGuarding(m, s, s', p, q); } else { LocksKept(s, s', p, q); }
  }

  lemma LockFrameGuarding(m: Mode, s: State, s': State, p: nat, q: nat)
    requires QuietStep(s, s', p) && q != p && s.Alive(q) && s.procs[q].pc.Guarding? && GuardingOk(m, s, q)
    ensures ProcOk(m, s', q)
  {
    hide MutateOk, SessionOk;
    LocksKept(s, s', p, q);
    var pc := s.procs[q].pc;
    forall r: nat | Covers(s', r, pc.id) && !pc.step.TakeFence? && !pc.step.Leave?
      ensures Covers(s, r, pc.id) && s'.procs[r].pc.task.job == s.procs[r].pc.task.job
    {
      if r == p { assert s.Held(Mutation(pc.id), q); }
    }
  }

  ghost predicate OnlyKey<V>(m: map<Job, V>, m': map<Job, V>, j: Job) {
    m' == m || m' == m - {j} || (j in m' && m' == m[j := m'[j]])
  }

  /** p writes Job j's document or index, under Job j's lock; what it leaves is unregistered,
      as it was, or refers only to Interfaces that p covers. */
  ghost predicate WritesJob(m: Mode, s: State, s': State, p: nat, j: Job) {
    && Only(s, s', p) && SameJob(s, s', p) && s'.locks == s.locks && s'.store == s.store && s.Held(JobLock(j), p)
    && OnlyKey(s.docs, s'.docs, j) && OnlyKey(s.index, s'.index, j)
    && (forall id :: Covers(s', p, id) ==> Covers(s, p, id))
    && (Agreed(m, s', j) ==>
          || (Agreed(m, s, j) && s'.docs[j] == s.docs[j])
          || (forall id :: id in InterfacesOf(s'.docs[j].config.calls) ==> Covers(s, p, id)))
  }

  lemma JobFrameMutate(m: Mode, s: State, s': State, p: nat, j: Job, q: nat)
    requires WritesJob(m, s, s', p, j) && q != p && s.Alive(q) && s.procs[q].pc.Mutate? && MutateOk(m, s, q)
    ensures ProcOk(m, s', q)
  {
    assert s'.procs[q] == s.procs[q];
    assert s.Held(JobLock(j), q) ==> false;
  }

  lemma JobFrameGuarding(m: Mode, s: State, s': State, p: nat, j: Job, q: nat)
    requires WritesJob(m, s, s', p, j) && q != p && s.Alive(q) && s.procs[q].pc.Guarding? && GuardingOk(m, s, q)
    ensures ProcOk(m, s', q)
  {
    hide MutateOk, SessionOk;
    assert s'.procs[q] == s.procs[q];
    var pc := s.procs[q].pc;
    forall r: nat | Covers(s', r, pc.id)
      ensures Covers(s, r, pc.id) && s'.procs[r].pc.task.job == s.procs[r].pc.task.job
    {
    }
  }

  lemma JobFrame(m: Mode, s: State, s': State, p: nat, j: Job, q: nat)
    requires Inv(m, s) && WritesJob(m, s, s', p, j)
    requires q != p && s.Alive(q)
    ensures ProcOk(m, s', q)
  {
    assert s.procs[q].alive && ProcOk(m, s, q) && s'.procs[q] == s.procs[q];
    match s.procs[q].pc {
      case Mutate(_, _, _, _, _, _) => JobFrameMutate(m, s, s', p, j, q);
      case Guarding(_, _, _, _, _, _) => JobFrameGuarding(m, s, s', p, j, q);
      case Session(_, _) =>
      case Done =>
    }
  }

  /** A step that touches no file keeps the invariant if p's own part of it holds. */
  lemma QuietKeeps(m: Mode, s: State, s': State, p: nat)
    requires Inv(m, s) && QuietStep(s, s', p) && ProcOk(m, s', p)
    ensures Keeps(m, s, s')
  {
    hide MutateOk, GuardingOk, SessionOk;
    assert forall j :: Agreed(m, s', j) ==> Agreed(m, s, j);
    assert forall call: MethodCall :: s'.Resolves(call) == s.Resolves(call);
    forall j | BeingSaved(s, j) ensures BeingSaved(s', j) {
      assert s.locks[JobLock(j)] != p;
      LocksKept(s, s', p, s.locks[JobLock(j)]);
      assert s'.Held(JobLock(j), s.locks[JobLock(j)]);
    }
    forall q | 0 <= q < |s'.procs| && s'.procs[q].alive ensures ProcOk(m, s', q) {
      if q != p { assert s.procs[q].alive; LockFrame(m, s, s', p, q); }
    }
  }

  /** A step that writes Job j's files under its lock. */
  lemma FileKeeps(m: Mode, s: State, s': State, p: nat, j: Job)
    requires Inv(m, s) && WritesJob(m, s, s', p, j) && (s.procs[p].pc.Mutate? ==> s.procs[p].pc.task.job == j)
    requires Agreed(m, s', j) ==>
               || (Agreed(m, s, j) && s'.docs[j] == s.docs[j])
               || AllResolve(s, s'.docs[j].config.calls, |s'.docs[j].config.calls|)
    requires FitKept(m, s, s', j)
    requires ProcOk(m, s', p)
    ensures Keeps(m, s, s')
  {
    hide MutateOk, GuardingOk, SessionOk;
    assert forall k :: k != j && Agreed(m, s', k) ==> Agreed(m, s, k);
    forall k | k != j && BeingSaved(s, k) ensures BeingSaved(s', k) {
      assert s.locks[JobLock(k)] != p;
    }
    forall q | 0 <= q < |s'.procs| && s'.procs[q].alive ensures ProcOk(m, s', q) {
      if q != p { assert s.procs[q].alive; JobFrame(m, s, s', p, j, q); }
    }
  }

  // ---------------------------------------------------------------- Job mutations

  /** p's own part of the invariant is all that its own steps need. */
  ghost predicate JobReady(m: Mode, s: State, p: nat) {
    s.Alive(p) && s.procs[p].pc.Mutate? && MutateOk(m, s, p)
  }

  lemma GateQuiet(m: Mode, s: State, s': State, p: nat)
    requires JobReady(m, s, p) && GateStep(m, s, s', p)
    ensures QuietStep(s, s', p)
  {
    hide MutateOk, GateStep, QuietStep;
    if s.procs[p].pc.phase.TakeJob? {
      TakeQuiet(m, s, s', p);
    } else if s.procs[p].pc.phase.ReadDoc? {
      ReadQuiet(m, s, s', p);
    } else {
      FenceQuiet(m, s, s', p);
    }
  }

  lemma TakeQuiet(m: Mode, s: State, s': State, p: nat)
    requires s.Alive(p) && s.procs[p].pc.Mutate? && s.procs[p].pc.phase.TakeJob? && GateStep(m, s, s', p)
    ensures QuietStep(s, s', p)
  {
  }

  lemma ReadQuiet(m: Mode, s: State, s': State, p: nat)
    requires s.Alive(p) && s.procs[p].pc.Mutate? && s.procs[p].pc.phase.ReadDoc? && GateStep(m, s, s', p)
    ensures QuietStep(s, s', p)
  {
  }

  lemma FenceQuiet(m: Mode, s: State, s': State, p: nat)
    requires s.Alive(p) && s.procs[p].pc.Mutate? && GateStep(m, s, s', p)
    requires !s.procs[p].pc.phase.TakeJob? && !s.procs[p].pc.phase.ReadDoc?
    ensures QuietStep(s, s', p)
  {
  }

  lemma GateSelf(m: Mode, s: State, s': State, p: nat)
    requires JobReady(m, s, p) && GateStep(m, s, s', p)
    requires !s.procs[p].pc.phase.ReadDoc? && !s.procs[p].pc.phase.FenceSecond?
    ensures ProcOk(m, s', p)
  {
    hide GuardingOk, SessionOk;
  }

  lemma ReadSelf(m: Mode, s: State, s': State, p: nat)
    requires JobReady(m, s, p) && GateStep(m, s, s', p)
    requires s.procs[p].pc.phase.ReadDoc? || s.procs[p].pc.phase.FenceSecond?
    ensures ProcOk(m, s', p)
  {
    hide GuardingOk, SessionOk;
  }

  lemma HoldQuiet(m: Mode, s: State, s': State, p: nat)
    requires JobReady(m, s, p) && HoldStep(s, s', p)
    ensures QuietStep(s, s', p)
  {
    hide MutateOk, HoldStep, QuietStep;
    if s.procs[p].pc.phase.Pick? { PickQuiet(s, s', p); } else { CheckQuiet(s, s', p); }
  }

  lemma PickQuiet(s: State, s': State, p: nat)
    requires s.Alive(p) && s.procs[p].pc.Mutate? && s.procs[p].pc.phase.Pick? && HoldStep(s, s', p)
    ensures QuietStep(s, s', p)
  {
  }

  lemma CheckQuiet(s: State, s': State, p: nat)
    requires s.Alive(p) && s.procs[p].pc.Mutate? && !s.procs[p].pc.phase.Pick? && HoldStep(s, s', p)
    ensures QuietStep(s, s', p)
  {
  }

  lemma PickSelf(m: Mode, s: State, s': State, p: nat)
    requires JobReady(m, s, p) && s.procs[p].pc.phase.Pick? && HoldStep(s, s', p)
    ensures ProcOk(m, s', p)
  {
    hide GuardingOk, SessionOk;
  }

  lemma CheckSelf(m: Mode, s: State, s': State, p: nat)
    requires JobReady(m, s, p) && (s.procs[p].pc.phase.CheckFirst? || s.procs[p].pc.phase.CheckSecond?)
              && HoldStep(s, s', p)
    ensures ProcOk(m, s', p)
  {
    hide GuardingOk, SessionOk;
  }

  lemma ReaderSelf(m: Mode, s: State, s': State, p: nat)
    requires JobReady(m, s, p) && s.procs[p].pc.phase.TakeReader? && HoldStep(s, s', p)
    ensures ProcOk(m, s', p)
  {
    hide GuardingOk, SessionOk;
  }

  lemma ValidateQuiet(m: Mode, s: State, s': State, p: nat)
    requires JobReady(m, s, p) && s.procs[p].pc.phase.Validate? && ValidateStep(m, s, s', p)
    ensures QuietStep(s, s', p)
  {
  }

  lemma ValidateSelf(m: Mode, s: State, s': State, p: nat)
    requires JobReady(m, s, p) && s.procs[p].pc.phase.Validate? && ValidateStep(m, s, s', p)
    ensures ProcOk(m, s', p)
  {
    hide GuardingOk, SessionOk;
  }

  lemma BackSelf(m: Mode, s: State, s': State, p: nat)
    requires JobReady(m, s, p) && s.procs[p].pc.phase.GiveBack? && BackStep(s, s', p)
    ensures ProcOk(m, s', p) && QuietStep(s, s', p)
  {
    hide GuardingOk, SessionOk;
  }

  lemma NeededCovered(m: Mode, s: State, p: nat)
    requires JobReady(m, s, p) && Storing(s.procs[p].pc.phase)
    ensures forall id :: Needs(s.procs[p].pc, id) ==> Covers(s, p, id)
  {
  }

  /** What a storing step must leave behind for FileKeeps to apply. */
  ghost predicate StoresWell(m: Mode, s: State, s': State, p: nat)
    requires s.Alive(p) && s.procs[p].pc.Mutate?
  {
    var j := s.procs[p].pc.task.job;
    && WritesJob(m, s, s', p, j)
    && (Agreed(m, s', j) ==>
          || (Agreed(m, s, j) && s'.docs[j] == s.docs[j])
          || AllResolve(s, s'.docs[j].config.calls, |s'.docs[j].config.calls|))
    && FitKept(m, s, s', j)
  }

  lemma ClearWell(m: Mode, s: State, s': State, p: nat)
    requires JobReady(m, s, p) && ClearStep(s, s', p)
    ensures StoresWell(m, s, s', p)
  {
  }

  lemma ClearSelf(m: Mode, s: State, s': State, p: nat)
    requires JobReady(m, s, p) && ClearStep(s, s', p)
    ensures ProcOk(m, s', p)
  {
    hide GuardingOk, SessionOk;
  }

  lemma SaveWell(m: Mode, s: State, s': State, p: nat)
    requires JobReady(m, s, p) && s.procs[p].pc.phase.SaveDoc? && SaveStep(m, s, s', p)
    ensures StoresWell(m, s, s', p)
  {
    NeededCovered(m, s, p);
  }

  lemma SaveSelf(m: Mode, s: State, s': State, p: nat)
    requires JobReady(m, s, p) && s.procs[p].pc.phase.SaveDoc? && SaveStep(m, s, s', p)
    ensures ProcOk(m, s', p)
  {
    hide GuardingOk, SessionOk;
  }

  lemma GiveUpKeeps(m: Mode, s: State, s': State, p: nat)
    requires Inv(m, s) && JobReady(m, s, p) && s.procs[p].pc.phase.SaveDoc?
    requires Moves(s, s', p, s.procs[p].pc.(phase := GiveBack(false)))
    ensures Keeps(m, s, s')
  {
    QuietKeeps(m, s, s', p);
  }

  lemma IndexWell(m: Mode, s: State, s': State, p: nat)
    requires JobReady(m, s, p) && s.procs[p].pc.phase.SaveIndex? && IndexStep(m, s, s', p)
    ensures StoresWell(m, s, s', p)
  {
    NeededCovered(m, s, p);
  }

  lemma IndexSelf(m: Mode, s: State, s': State, p: nat)
    requires JobReady(m, s, p) && s.procs[p].pc.phase.SaveIndex? && IndexStep(m, s, s', p)
    ensures ProcOk(m, s', p)
  {
    hide GuardingOk, SessionOk;
  }

  lemma UndoWell(m: Mode, s: State, s': State, p: nat)
    requires JobReady(m, s, p) && !s.procs[p].pc.phase.SaveIndex? && IndexStep(m, s, s', p)
    ensures StoresWell(m, s, s', p)
  {
    hide FromDocument, UndoStep, MutateOk;
    if UndoStep(m, s, s', p) { BackOutWell(m, s, s', p); } else { RemoveWell(m, s, s', p); }
  }

  lemma BackOutWell(m: Mode, s: State, s': State, p: nat)
    requires JobReady(m, s, p) && !s.procs[p].pc.phase.SaveIndex? && UndoStep(m, s, s', p)
    ensures StoresWell(m, s, s', p)
  {
    hide FromDocument;
  }

  lemma RemoveWell(m: Mode, s: State, s': State, p: nat)
    requires JobReady(m, s, p) && !s.procs[p].pc.phase.SaveIndex? && IndexStep(m, s, s', p) && !UndoStep(m, s, s', p)
    ensures StoresWell(m, s, s', p)
  {
    hide FromDocument, UndoStep;
  }

  lemma UndoSelf(m: Mode, s: State, s': State, p: nat)
    requires JobReady(m, s, p) && !s.procs[p].pc.phase.SaveIndex? && IndexStep(m, s, s', p)
    ensures ProcOk(m, s', p)
  {
    hide FromDocument, UndoStep, MutateOk, ProcOk;
    if UndoStep(m, s, s', p) { BackOutSelf(m, s, s', p); } else { RemoveSelf(m, s, s', p); }
  }

  lemma BackOutSelf(m: Mode, s: State, s': State, p: nat)
    requires JobReady(m, s, p) && UndoStep(m, s, s', p)
    ensures ProcOk(m, s', p)
  {
    hide GuardingOk, SessionOk, FromDocument;
  }

  lemma RemoveSelf(m: Mode, s: State, s': State, p: nat)
    requires JobReady(m, s, p) && !s.procs[p].pc.phase.SaveIndex? && IndexStep(m, s, s', p) && !UndoStep(m, s, s', p)
    ensures ProcOk(m, s', p)
  {
    hide GuardingOk, SessionOk, FromDocument, UndoStep;
  }

  lemma StoreKeeps(m: Mode, s: State, s': State, p: nat)
    requires Inv(m, s) && s.Alive(p) && s.procs[p].pc.Mutate? && StoresWell(m, s, s', p) && ProcOk(m, s', p)
    ensures Keeps(m, s, s')
  {
    FileKeeps(m, s, s', p, s.procs[p].pc.task.job);
  }

  lemma JobKeeps(m: Mode, s: State, s': State, p: nat)
    requires Inv(m, s) && JobReady(m, s, p) && JobStep(m, s, s', p)
    ensures Keeps(m, s, s')
  {
    var phase := s.procs[p].pc.phase;
    if phase.Validate? {
      ValidateQuiet(m, s, s', p);
      ValidateSelf(m, s, s', p);
      QuietKeeps(m, s, s', p);
    } else if phase.GiveBack? {
      BackSelf(m, s, s', p);
      QuietKeeps(m, s, s', p);
    } else if phase.SaveDoc? {
      if SaveStep(m, s, s', p) {
        SaveWell(m, s, s', p);
        SaveSelf(m, s, s', p);
        StoreKeeps(m, s, s', p);
      } else {
        GiveUpKeeps(m, s, s', p);
      }
    } else if GateStep(m, s, s', p) {
      GateQuiet(m, s, s', p);
      if phase.ReadDoc? || phase.FenceSecond? { ReadSelf(m, s, s', p); } else { GateSelf(m, s, s', p); }
      QuietKeeps(m, s, s', p);
    } else {
      JobRestKeeps(m, s, s', p);
    }
  }

  lemma JobRestKeeps(m: Mode, s: State, s': State, p: nat)
    requires Inv(m, s) && JobReady(m, s, p) && (HoldStep(s, s', p) || ClearStep(s, s', p) || IndexStep(m, s, s', p))
    ensures Keeps(m, s, s')
  {
    assert s.Alive(p) && s.procs[p].pc.Mutate?;
    hide Inv, HoldStep, ClearStep, IndexStep, StoresWell, QuietStep, MutateOk, ProcOk;
    if HoldStep(s, s', p) {
      HoldQuiet(m, s, s', p);
      match s.procs[p].pc.phase {
        case Pick => PickSelf(m, s, s', p);
        case TakeReader(_) => ReaderSelf(m, s, s', p);
        case _ => CheckSelf(m, s, s', p);
      }
      QuietKeeps(m, s, s', p);
    } else if ClearStep(s, s', p) {
      ClearWell(m, s, s', p);
      ClearSelf(m, s, s', p);
      StoreKeeps(m, s, s', p);
    } else if s.procs[p].pc.phase.SaveIndex? {
      IndexWell(m, s, s', p);
      IndexSelf(m, s, s', p);
      StoreKeeps(m, s, s', p);
    } else {
      UndoWell(m, s, s', p);
      UndoSelf(m, s, s', p);
      StoreKeeps(m, s, s', p);
    }
  }

  // ---------------------------------------------------------------- Interface mutations

  ghost predicate GuardReady(m: Mode, s: State, p: nat) {
    s.Alive(p) && s.procs[p].pc.Guarding? && GuardingOk(m, s, p)
  }

  lemma ReaderQuiet(m: Mode, s: State, s': State, p: nat)
    requires GuardReady(m, s, p) && ReaderStep(s, s', p)
    ensures QuietStep(s, s', p)
  {
    hide GuardingOk, ReaderStep, QuietStep;
    if s.procs[p].pc.step.ProbeReaders? { ProbeQuiet(s, s', p); } else { PublishQuiet(s, s', p); }
  }

  lemma ProbeQuiet(s: State, s': State, p: nat)
    requires s.Alive(p) && s.procs[p].pc.Guarding? && s.procs[p].pc.step.ProbeReaders? && ReaderStep(s, s', p)
    ensures QuietStep(s, s', p)
  {
  }

  lemma PublishQuiet(s: State, s': State, p: nat)
    requires s.Alive(p) && s.procs[p].pc.Guarding? && !s.procs[p].pc.step.ProbeReaders? && ReaderStep(s, s', p)
    ensures QuietStep(s, s', p)
  {
    hide ReadersOf;
  }

  lemma SearchQuiet(m: Mode, s: State, s': State, p: nat)
    requires GuardReady(m, s, p) && SearchStep(m, s, s', p)
    ensures QuietStep(s, s', p)
  {
    hide GuardingOk, SearchStep, QuietStep;
    if s.procs[p].pc.step.TakeJobs? { JobsQuiet(m, s, s', p); } else { ScanQuiet(m, s, s', p); }
  }

  lemma JobsQuiet(m: Mode, s: State, s': State, p: nat)
    requires s.Alive(p) && s.procs[p].pc.Guarding? && s.procs[p].pc.step.TakeJobs? && SearchStep(m, s, s', p)
    ensures QuietStep(s, s', p)
  {
  }

  lemma ScanQuiet(m: Mode, s: State, s': State, p: nat)
    requires s.Alive(p) && s.procs[p].pc.Guarding? && !s.procs[p].pc.step.TakeJobs? && SearchStep(m, s, s', p)
    ensures QuietStep(s, s', p)
  {
    hide Reports;
  }

  lemma ActionQuiet(m: Mode, s: State, s': State, p: nat)
    requires GuardReady(m, s, p) && ActionStep(s, s', p) && s'.store == s.store
    ensures QuietStep(s, s', p)
  {
    hide GuardingOk, ActionStep, QuietStep;
    if s.procs[p].pc.step.Leave? { LeaveQuiet(s, s', p); } else { StoreQuiet(s, s', p); }
  }

  lemma LeaveQuiet(s: State, s': State, p: nat)
    requires s.Alive(p) && s.procs[p].pc.Guarding? && s.procs[p].pc.step.Leave? && ActionStep(s, s', p)
    ensures QuietStep(s, s', p)
  {
  }

  lemma StoreQuiet(s: State, s': State, p: nat)
    requires s.Alive(p) && s.procs[p].pc.Guarding? && !s.procs[p].pc.step.Leave? && ActionStep(s, s', p)
              && s'.store == s.store
    ensures QuietStep(s, s', p)
  {
    hide Allowed;
  }

  /** Nothing p does as an Interface mutation changes what the Job mutations rely on. */
  lemma SameCovers(s: State, s': State, p: nat, id: Id)
    requires Only(s, s', p) && !s.procs[p].pc.Mutate? && !s'.procs[p].pc.Mutate?
    ensures forall q: nat :: Covers(s', q, id) <==> Covers(s, q, id)
  {
  }

  /** Every Job mutation that relies on the Interface has its reader lock in the directory. */
  lemma ListedReaders(m: Mode, s: State, p: nat)
    requires Procs(m, s) && GuardReady(m, s, p)
    ensures CoverersIn(s, s.procs[p].pc.id, ReadersOf(s.locks, s.procs[p].pc.id))
  {
    var id := s.procs[p].pc.id;
    forall q: nat | Covers(s, q, id)
      ensures s.procs[q].pc.task.job in ReadersOf(s.locks, id)
    {
      assert s.procs[q].alive && ProcOk(m, s, q);
      assert s.Held(Reader(id, s.procs[q].pc.task.job), q);
    }
  }

  /** A reader lock that can be taken belongs to no Job mutation that still relies on it. */
  lemma ProbedReader(m: Mode, s: State, id: Id, names: set<Job>, j: Job)
    requires Procs(m, s) && CoverersIn(s, id, names) && s.CanTake(Reader(id, j))
    ensures CoverersIn(s, id, names - {j})
  {
    forall q: nat | Covers(s, q, id) ensures s.procs[q].pc.task.job in names - {j} {
      assert s.procs[q].alive && ProcOk(m, s, q);
      assert s.Held(Reader(id, s.procs[q].pc.task.job), q);
    }
  }

  lemma FenceSelf(m: Mode, s: State, s': State, p: nat)
    requires Procs(m, s) && GuardReady(m, s, p) && ReaderStep(s, s', p)
    requires s.procs[p].pc.step.TakeFence? || s.procs[p].pc.step.DropReader?
    ensures ProcOk(m, s', p)
  {
    hide ReadersOf, Procs, MutateOk, SessionOk;
    SameCovers(s, s', p, s.procs[p].pc.id);
  }

  lemma ListSelf(m: Mode, s: State, s': State, p: nat)
    requires Procs(m, s) && GuardReady(m, s, p) && ReaderStep(s, s', p) && s.procs[p].pc.step.ListReaders?
    ensures ProcOk(m, s', p)
  {
    hide ReadersOf, Procs, MutateOk, SessionOk;
    SameCovers(s, s', p, s.procs[p].pc.id);
    ListedReaders(m, s, p);
  }

  lemma ProbeSelf(m: Mode, s: State, s': State, p: nat)
    requires Procs(m, s) && GuardReady(m, s, p) && ReaderStep(s, s', p)
    requires s.procs[p].pc.step.ProbeReaders?
    ensures ProcOk(m, s', p)
  {
    hide MutateOk, SessionOk;
    var pc := s.procs[p].pc;
    SameCovers(s, s', p, pc.id);
    if s'.procs[p].pc.step.DropReader? {
      ProbedReader(m, s, pc.id, pc.left, s'.procs[p].pc.step.job);
    }
  }

  /** Where nobody relies on the Interface, the search reports every registered Job that refers
      to it and whose index entry fits. */
  lemma ReportsAll(m: Mode, s: State, id: Id, j: Job)
    requires Procs(m, s) && Uncovered(s, id) && (m.ls ==> Fits(s, j))
    requires j in s.docs && Registered(m, s, j) && id in InterfacesOf(s.docs[j].config.calls)
    ensures Reports(m, s, j, id)
  {
    if m.ls {
      if s.index[j] == FromDocument(s.docs[j]) {
        var calls := s.docs[j].config.calls;
        var k :| 0 <= k < |calls| && calls[k].interfaceId == id;
        assert References(calls)[k].interfaceId == id;
      } else {
        var q := s.locks[JobLock(j)];
        assert s.procs[q].alive && ProcOk(m, s, q);
        NeededCovered(m, s, q);
        assert Needs(s.procs[q].pc, id);
      }
    }
  }

  /** In the generic product a Job that the scan cannot read is reported for every Interface, and one
      Job reported is enough to refuse the removal and every change of what a call sees. */
  lemma UnreadableBlocks(m: Mode, s: State, j: Job, id: Id, change: Change, current: Interface, found: set<Job>)
    requires !m.ls && j in s.docs && !ScanReads(s.docs[j].config.calls)
    ensures Reports(m, s, j, id)
    ensures j in found && Allowed(change, current, found) ==>
              change.Edit? && change.next.shape == current.shape && change.next.methods == current.methods
  {
  }

  lemma ScanSelf(m: Mode, s: State, s': State, p: nat)
    requires Inv(m, s) && GuardReady(m, s, p) && SearchStep(m, s, s', p)
    ensures ProcOk(m, s', p)
  {
    hide Reports, MutateOk, SessionOk;
    var pc := s.procs[p].pc;
    SearchQuiet(m, s, s', p);
    SameCovers(s, s', p, pc.id);
    if pc.step.ScanJobs? { ReferrersReported(m, s, pc.id); }
  }

  lemma ReferrersReported(m: Mode, s: State, id: Id)
    requires Procs(m, s) && Uncovered(s, id)
    ensures forall j :: Agreed(m, s, j) && id in InterfacesOf(s.docs[j].config.calls) ==> Reports(m, s, j, id)
  {
    hide Reports, Procs;
    forall j | Agreed(m, s, j) && id in InterfacesOf(s.docs[j].config.calls) ensures Reports(m, s, j, id) {
      ReportsAll(m, s, id, j);
    }
  }

  lemma ActionSelf(m: Mode, s: State, s': State, p: nat)
    requires GuardReady(m, s, p) && !s.procs[p].pc.step.Leave? && ActionStep(s, s', p) && s'.store == s.store
    requires !WritesStore(m, s, s', p)
    ensures ProcOk(m, s', p)
  {
    hide MutateOk, SessionOk;
    StoreQuiet(s, s', p);
    SameCovers(s, s', p, s.procs[p].pc.id);
  }

  lemma LeaveSelf(m: Mode, s: State, s': State, p: nat)
    requires GuardReady(m, s, p) && s.procs[p].pc.step.Leave? && ActionStep(s, s', p)
    ensures ProcOk(m, s', p)
  {
    hide MutateOk, SessionOk;
  }

  /** The guarded action: nobody relies on the Interface, and no registered Job refers to a
      Method that it takes away. */
  ghost predicate WritesStore(m: Mode, s: State, s': State, p: nat) {
    && GuardReady(m, s, p) && s.procs[p].pc.step.WriteStore?
    && Only(s, s', p) && s'.procs[p].pc == s.procs[p].pc.(step := Leave(true))
    && s'.locks == s.locks && s'.docs == s.docs && s'.index == s.index
    && Allowed(s.procs[p].pc.change, s.procs[p].pc.step.current, s.procs[p].pc.found)
    && s'.store == if s.procs[p].pc.change.Remove? then s.store - {s.procs[p].pc.id}
                   else s.store[s.procs[p].pc.id := s.procs[p].pc.change.next]
  }

  /** A call that resolved still resolves, unless it is of this Interface and nothing was found to refer to it. */
  lemma StillResolves(m: Mode, s: State, s': State, p: nat, call: MethodCall)
    requires WritesStore(m, s, s', p) && s.Resolves(call)
    requires call.interfaceId != s.procs[p].pc.id || s.procs[p].pc.found != {}
    ensures s'.Resolves(call)
  {
  }

  lemma WriteConsistent(m: Mode, s: State, s': State, p: nat)
    requires AgreedResolve(m, s) && WritesStore(m, s, s', p)
    ensures AgreedResolve(m, s')
  {
    forall j, k | Agreed(m, s', j) && 0 <= k < |s'.docs[j].config.calls|
      ensures s'.Resolves(s'.docs[j].config.calls[k])
    {
      var call := s.docs[j].config.calls[k];
      assert Agreed(m, s, j);
      assert s.Resolves(call) && call.interfaceId in InterfacesOf(s.docs[j].config.calls);
      StillResolves(m, s, s', p, call);
    }
  }

  lemma ResolveFrame(m: Mode, s: State, s': State, p: nat, q: nat, calls: seq<MethodCall>, k: nat)
    requires WritesStore(m, s, s', p) && AllResolve(s, calls, k)
    requires s.Alive(q) && forall id :: id in InterfacesOf(calls) ==> Covers(s, q, id)
    ensures AllResolve(s', calls, k)
  {
    forall n | 0 <= n < k ensures s'.Resolves(calls[n]) {
      assert calls[n].interfaceId in InterfacesOf(calls);
      StillResolves(m, s, s', p, calls[n]);
    }
  }

  lemma WriteOther(m: Mode, s: State, s': State, p: nat, q: nat)
    requires Inv(m, s) && WritesStore(m, s, s', p) && q != p && s.Alive(q)
    ensures ProcOk(m, s', q)
  {
    assert s.procs[q].alive && ProcOk(m, s, q) && s'.procs[q] == s.procs[q];
    var pc := s.procs[q].pc;
    if pc.Mutate? {
      if Storing(pc.phase) {
        NeededCovered(m, s, q);
        if pc.phase.SaveIndex? {
          ResolveFrame(m, s, s', p, q, pc.current.value.config.calls, |pc.current.value.config.calls|);
        } else {
          ResolveFrame(m, s, s', p, q, pc.task.next.calls, if pc.phase.Validate? then pc.phase.k
              else |pc.task.next.calls|);
        }
      }
    } else if pc.Guarding? {
      SameCovers(s, s', p, pc.id);
    }
  }

  lemma WriteKeeps(m: Mode, s: State, s': State, p: nat)
    requires Inv(m, s) && WritesStore(m, s, s', p)
    ensures Keeps(m, s, s')
  {
    WriteConsistent(m, s, s', p);
    forall j | BeingSaved(s, j) ensures BeingSaved(s', j) { assert s.locks[JobLock(j)] != p; }
    forall q | 0 <= q < |s'.procs| && s'.procs[q].alive ensures ProcOk(m, s', q) {
      if q != p { assert s.procs[q].alive; WriteOther(m, s, s', p, q); }
    }
  }

  lemma GuardKeeps(m: Mode, s: State, s': State, p: nat)
    requires Inv(m, s) && GuardReady(m, s, p) && GuardStep(m, s, s', p)
    ensures Keeps(m, s, s')
  {
    if ReaderStep(s, s', p) {
      ReaderQuiet(m, s, s', p);
      match s.procs[p].pc.step {
        case ProbeReaders => ProbeSelf(m, s, s', p);
        case ListReaders => ListSelf(m, s, s', p);
        case _ => FenceSelf(m, s, s', p);
      }
      QuietKeeps(m, s, s', p);
    } else if SearchStep(m, s, s', p) {
      SearchQuiet(m, s, s', p);
      ScanSelf(m, s, s', p);
      QuietKeeps(m, s, s', p);
    } else if WritesStore(m, s, s', p) {
      WriteKeeps(m, s, s', p);
    } else {
      ActionQuiet(m, s, s', p);
      if s.procs[p].pc.step.Leave? { LeaveSelf(m, s, s', p); } else { ActionSelf(m, s, s', p); }
      QuietKeeps(m, s, s', p);
    }
  }

  // ---------------------------------------------------------------- sessions, deaths, new Interfaces

  lemma OpenSelf(m: Mode, s: State, s': State, p: nat)
    requires s.Alive(p) && s.procs[p].pc.Session? && SessionOk(s, p) && OpenStep(m, s, s', p)
    ensures ProcOk(m, s', p)
  {
    hide MutateOk, GuardingOk, SessionOk, OpenStep;
    if s.procs[p].pc.state.Enter? { EnterSelf(m, s, s', p); } else { HandlesSelf(m, s, s', p); }
  }

  lemma EnterSelf(m: Mode, s: State, s': State, p: nat)
    requires s.Alive(p) && s.procs[p].pc.Session? && s.procs[p].pc.state.Enter? && SessionOk(s, p)
    requires OpenStep(m, s, s', p)
    ensures ProcOk(m, s', p)
  {
    hide MutateOk, GuardingOk;
  }

  lemma HandlesSelf(m: Mode, s: State, s': State, p: nat)
    requires s.Alive(p) && s.procs[p].pc.Session? && !s.procs[p].pc.state.Enter? && SessionOk(s, p)
    requires OpenStep(m, s, s', p)
    ensures ProcOk(m, s', p)
  {
    hide MutateOk, GuardingOk;
  }

  lemma CloseSelf(m: Mode, s: State, s': State, p: nat)
    requires s.Alive(p) && s.procs[p].pc.Session? && SessionOk(s, p) && s.procs[p].pc.state.Closing?
    requires CloseStep(s, s', p, s.procs[p].pc.state.todo)
    ensures ProcOk(m, s', p)
  {
    hide MutateOk, GuardingOk;
    if s.procs[p].pc.state.todo == {} { CloseEnds(m, s, s', p); } else { CloseOne(m, s, s', p); }
  }

  lemma CloseEnds(m: Mode, s: State, s': State, p: nat)
    requires s.Alive(p) && s.procs[p].pc.Session? && SessionOk(s, p) && s.procs[p].pc.state == Closing({})
    requires CloseStep(s, s', p, {})
    ensures ProcOk(m, s', p)
  {
    hide MutateOk, GuardingOk;
  }

  lemma CloseOne(m: Mode, s: State, s': State, p: nat)
    requires s.Alive(p) && s.procs[p].pc.Session? && SessionOk(s, p) && s.procs[p].pc.state.Closing?
    requires s.procs[p].pc.state.todo != {} && CloseStep(s, s', p, s.procs[p].pc.state.todo)
    ensures ProcOk(m, s', p)
  {
    hide MutateOk, GuardingOk;
  }

  lemma OpenQuiet(m: Mode, s: State, s': State, p: nat)
    requires s.Alive(p) && s.procs[p].pc.Session? && OpenStep(m, s, s', p) && s'.docs == s.docs
    ensures QuietStep(s, s', p)
  {
  }

  lemma CloseQuiet(s: State, s': State, p: nat, todo: set<Job>)
    requires s.Alive(p) && s.procs[p].pc.Session? && CloseStep(s, s', p, todo)
    ensures QuietStep(s, s', p)
  {
    hide CloseStep, QuietStep;
    if todo == {} { EndQuiet(s, s', p); } else { HandleQuiet(s, s', p, todo); }
  }

  lemma EndQuiet(s: State, s': State, p: nat)
    requires s.Alive(p) && s.procs[p].pc.Session? && CloseStep(s, s', p, {})
    ensures QuietStep(s, s', p)
  {
  }

  lemma HandleQuiet(s: State, s': State, p: nat, todo: set<Job>)
    requires s.Alive(p) && s.procs[p].pc.Session? && todo != {} && CloseStep(s, s', p, todo)
    ensures QuietStep(s, s', p)
  {
  }

  lemma SessionKeeps(m: Mode, s: State, s': State, p: nat)
    requires Inv(m, s) && s.Alive(p) && s.procs[p].pc.Session? && SessionOk(s, p) && SessionStep(m, s, s', p)
    ensures Keeps(m, s, s')
  {
    if s.procs[p].pc.state.Closing? {
      CloseSelf(m, s, s', p);
      CloseQuiet(s, s', p, s.procs[p].pc.state.todo);
      QuietKeeps(m, s, s', p);
    } else {
      OpenSelf(m, s, s', p);
      if s'.docs == s.docs {
        OpenQuiet(m, s, s', p);
        QuietKeeps(m, s, s', p);
      } else {
        var j :| j in s.procs[p].pc.handles && SessionDeletes(s, s', p, j);
        FileKeeps(m, s, s', p, j);
      }
    }
  }

  lemma DeathKeeps(m: Mode, s: State, s': State, p: nat)
    requires Inv(m, s) && Dies(m, s, s', p)
    ensures Keeps(m, s, s')
  {
    hide ProcOk;
    forall j | BeingSaved(s, j) && s.locks[JobLock(j)] != p ensures BeingSaved(s', j) {}
    forall q | 0 <= q < |s'.procs| && s'.procs[q].alive ensures ProcOk(m, s', q) {
      assert s.procs[q].alive && ProcOk(m, s, q);
      DeathOther(m, s, s', p, q);
    }
  }

  lemma DeathOther(m: Mode, s: State, s': State, p: nat, q: nat)
    requires Dies(m, s, s', p) && s'.Alive(q) && ProcOk(m, s, q)
    ensures ProcOk(m, s', q)
  {
    if s.procs[q].pc.Guarding? {
      forall r: nat | Covers(s', r, s.procs[q].pc.id) ensures Covers(s, r, s.procs[q].pc.id) {}
    }
  }

  lemma RegisterKeeps(m: Mode, s: State, s': State)
    requires Inv(m, s) && Registers(s, s')
    ensures Keeps(m, s, s')
  {
    hide ProcOk;
    assert forall call: MethodCall :: s.Resolves(call) ==> s'.Resolves(call);
    forall j | BeingSaved(s, j) ensures BeingSaved(s', j) {}
    forall q | 0 <= q < |s'.procs| && s'.procs[q].alive ensures ProcOk(m, s', q) {
      assert s.procs[q].alive && ProcOk(m, s, q);
      RegisterOther(m, s, s', q);
    }
  }

  lemma RegisterOther(m: Mode, s: State, s': State, q: nat)
    requires Registers(s, s') && s.Alive(q) && ProcOk(m, s, q)
    ensures ProcOk(m, s', q)
  {
    if s.procs[q].pc.Guarding? {
      forall r: nat | Covers(s', r, s.procs[q].pc.id) ensures Covers(s, r, s.procs[q].pc.id) {}
    }
  }

  lemma NextKeeps(m: Mode, s: State, s': State)
    requires Inv(m, s) && Next(m, s, s')
    ensures Keeps(m, s, s')
  {
    if Registers(s, s') {
      RegisterKeeps(m, s, s');
    } else {
      var p: nat :| Acts(m, s, s', p) || Dies(m, s, s', p);
      assert s.procs[p].alive && ProcOk(m, s, p);
      if Dies(m, s, s', p) {
        DeathKeeps(m, s, s', p);
      } else {
        match s.procs[p].pc {
          case Mutate(_, _, _, _, _, _) => JobKeeps(m, s, s', p);
          case Guarding(_, _, _, _, _, _) => GuardKeeps(m, s, s', p);
          case Session(_, _) => SessionKeeps(m, s, s', p);
        }
      }
    }
  }

  lemma {:induction false} RunInv(m: Mode, run: seq<State>, i: nat)
    requires IsRun(m, run) && i < |run|
    ensures Inv(m, run[i])
  {
    if i == 0 {
      InitInv(m, run[0]);
    } else {
      RunInv(m, run, i - 1);
      assert Next(m, run[i - 1], run[i - 1 + 1]);
      NextKeeps(m, run[i - 1], run[i]);
    }
  }

  // ---------------------------------------------------------------- theorems

  /** Referential integrity: in every state of every run, in every Mode, each call of a Job whose
      index entry is that of its document names an Interface and a Method of the store; so does
      each call of a Job that a live update is about to index. */
  lemma AgreedJobsResolve(m: Mode, run: seq<State>, i: nat, j: Job, k: nat)
    requires IsRun(m, run) && i < |run| && j in run[i].docs && k < |run[i].docs[j].config.calls|
    requires Agreed(m, run[i], j) || BeingSaved(run[i], j)
    ensures var call := run[i].docs[j].config.calls[k];
            call.interfaceId in run[i].store && call.methodId in run[i].store[call.interfaceId].methods
  {
    RunInv(m, run, i);
    if BeingSaved(run[i], j) {
      var q := run[i].locks[JobLock(j)];
      assert run[i].procs[q].alive && ProcOk(m, run[i], q);
    }
    assert run[i].Resolves(run[i].docs[j].config.calls[k]);
  }

  /** Between two states no update of the Job has ended between its two writes. */
  ghost predicate NeverLost(run: seq<State>, from: nat, i: nat, j: Job) {
    forall n {:trigger run[n]} :: from <= n < i && n + 1 < |run| ==> !Loses(run[n], run[n + 1], j)
  }

  /** Only that makes an index entry differ from its document, and only where it can happen. */
  lemma {:induction false} RunFits(m: Mode, run: seq<State>, from: nat, i: nat, j: Job)
    requires m.ls && IsRun(m, run) && from <= i < |run|
    requires Fits(run[from], j) && (m.indexFaults ==> NeverLost(run, from, i, j))
    ensures Fits(run[i], j)
  {
    hide Init, Next, Loses, Fits;
    if i == from {
    } else {
      RunFits(m, run, from, i - 1, j);
      assert m.indexFaults ==> !Loses(run[i - 1], run[i - 1 + 1], j);
      StepFits(m, run, i - 1, j);
    }
  }

  lemma StepFits(m: Mode, run: seq<State>, n: nat, j: Job)
    requires m.ls && IsRun(m, run) && n + 1 < |run|
    requires Fits(run[n], j) && (m.indexFaults ==> !Loses(run[n], run[n + 1], j))
    ensures Fits(run[n + 1], j)
  {
    hide Init, Next, Loses, Fits, Inv;
    RunInv(m, run, n);
    assert Next(m, run[n], run[n + 1]);
    NextKeeps(m, run[n], run[n + 1]);
    assert FitKept(m, run[n], run[n + 1], j);
  }

  /** The entries of all Jobs fit at the start, and that of a Job whenever its index is written. */
  lemma StartFits(m: Mode, run: seq<State>, j: Job)
    requires m.ls && IsRun(m, run)
    ensures Fits(run[0], j)
  {
  }

  lemma WriteFits(m: Mode, run: seq<State>, i: nat, p: nat)
    requires m.ls && IsRun(m, run) && i + 1 < |run| && Acts(m, run[i], run[i + 1], p)
    requires run[i].procs[p].pc.Mutate? && run[i].procs[p].pc.phase.SaveIndex?
    ensures var j := run[i].procs[p].pc.task.job;
      Fits(run[i + 1], j) || (run[i + 1].index == run[i].index && run[i + 1].procs[p].pc.phase == GiveBack(false))
  {
    RunInv(m, run, i);
    assert run[i].procs[p].alive && ProcOk(m, run[i], p);
  }

  /** The calls of a registered Job resolve as long as no update of this Job has ended between its
      two writes, from the start or since the last time its index entry fitted, whatever became
      of other Jobs. */
  lemma ReferencesResolve(m: Mode, run: seq<State>, from: nat, i: nat, j: Job, k: nat)
    requires IsRun(m, run) && from <= i < |run|
    requires m.ls ==> Fits(run[from], j) && (m.indexFaults ==> NeverLost(run, from, i, j))
    requires j in run[i].docs && Registered(m, run[i], j) && k < |run[i].docs[j].config.calls|
    ensures var call := run[i].docs[j].config.calls[k];
            call.interfaceId in run[i].store && call.methodId in run[i].store[call.interfaceId].methods
  {
    if m.ls { RunFits(m, run, from, i, j); }
    AgreedJobsResolve(m, run, i, j, k);
  }

  /** A Mode in which no update can end between its two writes. */
  predicate Safe(m: Mode) {
    !(m.ls && m.indexFaults)
  }

  /** There every call of every registered Job resolves in every state. */
  lemma SafeReferencesResolve(m: Mode, run: seq<State>, i: nat)
    requires Safe(m) && IsRun(m, run) && i < |run|
    ensures Consistent(m, run[i])
  {
    forall j, k | j in run[i].docs && Registered(m, run[i], j) && 0 <= k < |run[i].docs[j].config.calls|
      ensures run[i].Resolves(run[i].docs[j].config.calls[k])
    {
      if m.ls { StartFits(m, run, j); }
      ReferencesResolve(m, run, 0, i, j, k);
    }
  }

  /** The handshake: a Job mutation that relies on an Interface and an Interface mutation past
      its reader probe never coexist. */
  lemma HandshakeExcludes(m: Mode, run: seq<State>, i: nat, p: nat, q: nat, id: Id)
    requires IsRun(m, run) && i < |run|
    requires run[i].Alive(p) && run[i].procs[p].pc.Guarding? && run[i].procs[p].pc.id == id
    requires PastReaders(run[i].procs[p].pc.step)
    ensures !Covers(run[i], q, id)
  {
    RunInv(m, run, i);
    assert run[i].procs[p].alive && ProcOk(m, run[i], p);
  }

  /** Past its second fence check a Job mutation has its Job's lock. */
  predicate PastFence(pc: PC) {
    pc.Mutate? && !pc.phase.FenceFirst? && !pc.phase.TakeJob? && !pc.phase.FenceSecond? && !pc.phase.GiveBack?
  }

  /** A package session and a Job mutation never both work on one Job; and while the session
      has any Job lock, or any handle, the fence is its own, whatever releases have thrown. */
  lemma SessionExcludes(m: Mode, run: seq<State>, i: nat, p: nat, q: nat, j: Job)
    requires IsRun(m, run) && i < |run|
    requires run[i].Alive(p) && run[i].procs[p].pc.Session?
    ensures (run[i].Alive(q) && PastFence(run[i].procs[q].pc) && run[i].procs[q].pc.task.job == j) ==>
              !run[i].Held(JobLock(j), p) && !(run[i].procs[p].pc.state.Open? && j in run[i].procs[p].pc.handles)
    ensures run[i].Held(JobLock(j), p) || run[i].procs[p].pc.handles != {} ==> run[i].Held(Fence, p)
  {
    RunInv(m, run, i);
    assert run[i].procs[p].alive && ProcOk(m, run[i], p);
    if run[i].Alive(q) && PastFence(run[i].procs[q].pc) { assert run[i].procs[q].alive && ProcOk(m, run[i], q); }
  }

  /** While a package session holds the fence, a Job mutation at its second fence check gives up. */
  lemma FenceBlocks(m: Mode, run: seq<State>, i: nat, p: nat, q: nat)
    requires IsRun(m, run) && i + 1 < |run|
    requires run[i].Alive(p) && run[i].procs[p].pc.Session?
    requires run[i].procs[p].pc.state.Open? || run[i].procs[p].pc.handles != {}
    requires run[i].Alive(q) && run[i].procs[q].pc.Mutate? && run[i].procs[q].pc.phase.FenceSecond?
    requires Acts(m, run[i], run[i + 1], q)
    ensures run[i + 1].procs[q].pc.phase == GiveBack(false)
  {
    RunInv(m, run, i);
    assert run[i].procs[p].alive && ProcOk(m, run[i], p);
    assert !run[i].CanTake(Fence);
  }

  /** The LS index of a registered Job is that of its document, except between the two writes of a
      live update of that Job and after an update of that Job that ended there; for the Jobs of
      which this is so both forms of the search report the same, if and only if the scan can read
      their documents. */
  lemma IndexAgrees(m: Mode, run: seq<State>, i: nat, names: seq<Name>, id: Name, methodId: Option<Name>)
    requires m.ls && IsRun(m, run) && i < |run|
    requires forall n <- names :: n in run[i].docs && n in run[i].index && !BeingSaved(run[i], n)
    requires m.indexFaults ==> forall n <- names :: FittedSince(run, i, n)
    ensures forall n <- names :: run[i].index[n] == FromDocument(run[i].docs[n])
    ensures FindIndexed(names, run[i].index, id, methodId) == FindScanned(names, run[i].docs, id, methodId)
            <==> forall n <- names :: ScanReads(run[i].docs[n].config.calls)
  {
    forall n | n in names ensures run[i].index[n] == FromDocument(run[i].docs[n]) {
      if !m.indexFaults {
        StartFits(m, run, n);
        RunFits(m, run, 0, i, n);
      } else {
        assert FittedSince(run, i, n);
        var from: nat :| from <= i && Fits(run[from], n) && NeverLost(run, from, i, n);
        RunFits(m, run, from, i, n);
      }
    }
    FindAgrees(names, run[i].docs, run[i].index, id, methodId);
  }

  /** Since a state in which the entry fitted, no update of the Job has ended between its writes. */
  ghost predicate FittedSince(run: seq<State>, i: nat, j: Job)
    requires i < |run|
  {
    exists from: nat :: from <= i && Fits(run[from], j) && NeverLost(run, from, i, j)
  }

  /** A step that replaces a stored document replaces it by a different configuration under
      the next revision; a new document begins at revision 1. */
  lemma SavesRaiseRevision(m: Mode, run: seq<State>, i: nat, j: Job)
    requires IsRun(m, run) && i + 1 < |run|
    requires j in run[i + 1].docs && (j in run[i].docs ==> run[i + 1].docs[j] != run[i].docs[j])
    ensures run[i + 1].docs[j].revision == if j in run[i].docs then run[i].docs[j].revision + 1 else 1
    ensures j in run[i].docs ==> run[i + 1].docs[j].config != run[i].docs[j].config
  {
    RunInv(m, run, i);
    assert Next(m, run[i], run[i + 1]);
    assert !Registers(run[i], run[i + 1]);
    var p: nat :| Acts(m, run[i], run[i + 1], p) || Dies(m, run[i], run[i + 1], p);
    assert run[i].procs[p].alive && ProcOk(m, run[i], p);
    NewRevision(m, run[i], run[i + 1], p, j);
  }

  lemma MutateAddsNone(m: Mode, s: State, s': State, p: nat)
    requires s.Alive(p) && s.procs[p].pc.Mutate? && !s.procs[p].pc.phase.SaveDoc? && JobStep(m, s, s', p)
    ensures s'.docs == s.docs || s'.docs == s.docs - {s.procs[p].pc.task.job}
  {
    hide GateStep, HoldStep, ClearStep, IndexStep, ValidateStep, BackStep;
    if s.procs[p].pc.phase.Validate? {
      ValidateAddsNone(m, s, s', p);
    } else if s.procs[p].pc.phase.GiveBack? {
      BackAddsNone(s, s', p);
    } else if GateStep(m, s, s', p) || HoldStep(s, s', p) {
      GateAddsNone(m, s, s', p);
    } else {
      FilesAddNone(m, s, s', p);
    }
  }

  lemma ValidateAddsNone(m: Mode, s: State, s': State, p: nat)
    requires s.Alive(p) && s.procs[p].pc.Mutate? && s.procs[p].pc.phase.Validate? && ValidateStep(m, s, s', p)
    ensures s'.docs == s.docs
  {
  }

  lemma BackAddsNone(s: State, s': State, p: nat)
    requires s.Alive(p) && s.procs[p].pc.Mutate? && BackStep(s, s', p)
    ensures s'.docs == s.docs
  {
  }

  lemma GateAddsNone(m: Mode, s: State, s': State, p: nat)
    requires s.Alive(p) && s.procs[p].pc.Mutate? && (GateStep(m, s, s', p) || HoldStep(s, s', p))
    ensures s'.docs == s.docs
  {
  }

  lemma FilesAddNone(m: Mode, s: State, s': State, p: nat)
    requires s.Alive(p) && s.procs[p].pc.Mutate? && (ClearStep(s, s', p) || IndexStep(m, s, s', p))
    ensures s'.docs == s.docs || s'.docs == s.docs - {s.procs[p].pc.task.job}
  {
    hide FromDocument;
  }

  lemma GuardAddsNone(m: Mode, s: State, s': State, p: nat)
    requires s.Alive(p) && s.procs[p].pc.Guarding? && GuardStep(m, s, s', p)
    ensures s'.docs == s.docs
  {
    hide ReaderStep, SearchStep, ActionStep;
    if ReaderStep(s, s', p) {
      ReaderAddsNone(s, s', p);
    } else if SearchStep(m, s, s', p) {
      SearchAddsNone(m, s, s', p);
    } else {
      ActionAddsNone(s, s', p);
    }
  }

  lemma ReaderAddsNone(s: State, s': State, p: nat)
    requires s.Alive(p) && s.procs[p].pc.Guarding? && ReaderStep(s, s', p)
    ensures s'.docs == s.docs
  {
    hide ReadersOf;
  }

  lemma SearchAddsNone(m: Mode, s: State, s': State, p: nat)
    requires s.Alive(p) && s.procs[p].pc.Guarding? && SearchStep(m, s, s', p)
    ensures s'.docs == s.docs
  {
    hide Reports;
  }

  lemma ActionAddsNone(s: State, s': State, p: nat)
    requires s.Alive(p) && s.procs[p].pc.Guarding? && ActionStep(s, s', p)
    ensures s'.docs == s.docs
  {
    hide Allowed;
  }

  lemma SessionAddsNone(m: Mode, s: State, s': State, p: nat)
    requires s.Alive(p) && s.procs[p].pc.Session? && SessionStep(m, s, s', p)
    ensures forall j :: j in s'.docs ==> j in s.docs && s'.docs[j] == s.docs[j]
  {
  }

  lemma NewRevision(m: Mode, s: State, s': State, p: nat, j: Job)
    requires Acts(m, s, s', p) && ProcOk(m, s, p)
    requires j in s'.docs && (j in s.docs ==> s'.docs[j] != s.docs[j])
    ensures s'.docs[j].revision == if j in s.docs then s.docs[j].revision + 1 else 1
    ensures j in s.docs ==> s'.docs[j].config != s.docs[j].config
  {
    match s.procs[p].pc {
      case Mutate(_, phase, _, _, _, _) => if !phase.SaveDoc? { MutateAddsNone(m, s, s', p); }
      case Guarding(_, _, _, _, _, _) => GuardAddsNone(m, s, s', p);
      case Session(_, _) => SessionAddsNone(m, s, s', p);
    }
  }
}
