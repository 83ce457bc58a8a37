/** Job mutations, Interface mutations and package sessions, as processes that interleave
    over the Job documents, the LS Job index, the Interface store and the operation locks.

    A lock here is what module OperationLock proves one to be: it has at most one live
    holder, and after its holder died it can be taken again. Each acquire, availability
    probe, release, file read and file write is one step. Any process can die between two
    steps, and a release can fail and leave its lock behind.
 */
module Handshake {
  import opened Options
  import opened JobIndex

  type Job = Name
  type Id = Name

  /** A stored D-Bus Interface; `shape` stands for everything but its name and methods. */
  datatype Interface = Interface(builtIn: bool, shape: seq<string>, methods: set<Id>)

  datatype Lock = JobLock(job: Job) | Fence | Mutation(id: Id) | Reader(id: Id, job: Job)

  datatype Task = CreateJob(job: Job, next: Config) | UpdateJob(job: Job, next: Config) | DeleteJob(job: Job)

  /** Where withMutation and the operation inside it are; at the end, whether done was called without
      a failure. */
  datatype JobPhase =
    | FenceFirst | TakeJob | FenceSecond | ReadDoc
    | Pick | CheckFirst(id: Id) | TakeReader(id: Id) | CheckSecond(id: Id)
    | Validate(k: nat)
    | ClearDoc | ClearIndex | SaveDoc | SaveIndex | Settle | UndoDoc | UndoIndex
    | RemoveDoc | RemoveIndex
    | GiveBack(ok: bool)

  /** Delete and the Method operations refuse any reference; an edit of the Interface refuses
      only if it changes what a call sees. */
  datatype Change = Remove | Replace(next: Interface) | Edit(next: Interface)

  datatype GuardPhase =
    | TakeFence | ListReaders | ProbeReaders | DropReader(job: Job)
    | ListJobs(again: bool) | ScanJobs(again: bool) | TakeJobs | ReadStore | WriteStore(current: Interface)
    | Leave(ok: bool)

  datatype SessionPhase = Enter | Open | Closing(todo: set<Job>)

  datatype PC =
    | Done
    | Mutate(task: Task, phase: JobPhase, todo: set<Id>, held: set<Id>, readers: set<Id>, current: Option<Document>)
    | Guarding(id: Id, change: Change, step: GuardPhase, left: set<Job>, found: set<Job>, taken: set<Job>)
    | Session(state: SessionPhase, handles: set<Job>)

  datatype Proc = Proc(alive: bool, pc: PC)

  datatype State = State(locks: map<Lock, nat>, docs: map<Job, Document>, index: map<Job, Index>,
                         store: map<Id, Interface>, procs: seq<Proc>)
  {
    predicate Alive(p: nat) {
      p < |procs| && procs[p].alive
    }

    predicate Held(n: Lock, p: nat) {
      n in locks && locks[n] == p
    }

    /** acquire and assertAvailable pass on a free lock, and may pass on one whose holder is dead. */
    predicate CanTake(n: Lock) {
      n in locks ==> !Alive(locks[n])
    }

    predicate MayRefuse(n: Lock) {
      n in locks
    }

    predicate Resolves(call: MethodCall) {
      call.interfaceId in store && call.methodId in store[call.interfaceId].methods
    }
  }

  /** `ls`: the LS product, which keeps the index. `indexFaults`: whether writing the index
      after saving an updated document may fail, or its process die just before it. */
  datatype Mode = Mode(ls: bool, indexFaults: bool)

  predicate Registered(m: Mode, s: State, j: Job) {
    j in s.docs && (m.ls ==> j in s.index)
  }

  // ---------------------------------------------------------------- Job mutations

  ghost predicate Moves(s: State, s': State, p: nat, pc: PC)
    requires p < |s.procs|
  {
    s' == s.(procs := s.procs[p := Proc(true, pc)])
  }

  ghost predicate Takes(s: State, s': State, p: nat, n: Lock, pc: PC)
    requires p < |s.procs|
  {
    s.CanTake(n) && s' == s.(locks := s.locks[n := p], procs := s.procs[p := Proc(true, pc)])
  }

  ghost predicate Gone(s: State, s': State, p: nat, n: Lock, pc: PC)
    requires p < |s.procs|
  {
    s' == s.(locks := s.locks - {n}, procs := s.procs[p := Proc(true, pc)])
  }

  /** Releasing removes the lock only while it is one's own, and may fail. */
  ghost predicate Drops(s: State, s': State, p: nat, n: Lock, pc: PC)
    requires p < |s.procs|
  {
    (s.Held(n, p) && Gone(s, s', p, n, pc)) || Moves(s, s', p, pc)
  }

  /** withMutation's own checks and lock, and reading the Job that is to change. */
  ghost predicate GateStep(m: Mode, s: State, s': State, p: nat)
    requires p < |s.procs| && s.procs[p].pc.Mutate?
  {
    var pc := s.procs[p].pc;
    var job := pc.task.job;
    var giveUp := pc.(phase := GiveBack(false));
    match pc.phase
    case FenceFirst =>
      || (s.CanTake(Fence) && Moves(s, s', p, pc.(phase := TakeJob)))
      || (s.MayRefuse(Fence) && Moves(s, s', p, Done))
    case TakeJob =>
      || Takes(s, s', p, JobLock(job), pc.(phase := FenceSecond))
      || (s.MayRefuse(JobLock(job)) && Moves(s, s', p, Done))
    case FenceSecond =>
      || (s.CanTake(Fence) &&
          Moves(s, s', p, if pc.task.CreateJob? then pc.(phase := Pick, todo := InterfacesOf(pc.task.next.calls))
                          else pc.(phase := ReadDoc)))
      || (s.MayRefuse(Fence) && Moves(s, s', p, giveUp))
    case ReadDoc =>
      // A document that does not validate, or a Job that is running, ends the operation.
      || Moves(s, s', p, giveUp)
      || (pc.task.UpdateJob? && job in s.docs && s.docs[job].config.calls != [] &&
          Moves(s, s', p, pc.(phase := Pick, current := Some(s.docs[job]),
                              todo := InterfacesOf(s.docs[job].config.calls) + InterfacesOf(pc.task.next.calls))))
      // deleteLs reads the index alone.
      || (pc.task.DeleteJob? && (if m.ls then job in s.index else job in s.docs) &&
          Moves(s, s', p, pc.(phase := RemoveDoc)))
    case _ => false
  }

  /** holdInterfaces: for each Interface not yet held, check the other side, publish the
      reader lock, and check the other side again. */
  ghost predicate HoldStep(s: State, s': State, p: nat)
    requires p < |s.procs| && s.procs[p].pc.Mutate?
  {
    var pc := s.procs[p].pc;
    var giveUp := pc.(phase := GiveBack(false));
    match pc.phase
    case Pick =>
      || (pc.todo == {} && Moves(s, s', p, pc.(phase := Validate(0))))
      || exists i :: i in pc.todo &&
           Moves(s, s', p, if i in pc.held then pc.(todo := pc.todo - {i})
                           else pc.(todo := pc.todo - {i}, phase := CheckFirst(i)))
    case CheckFirst(i) =>
      || (s.CanTake(Mutation(i)) && Moves(s, s', p, pc.(phase := TakeReader(i))))
      || (s.MayRefuse(Mutation(i)) && Moves(s, s', p, giveUp))
    case TakeReader(i) =>
      || Takes(s, s', p, Reader(i, pc.task.job), pc.(phase := CheckSecond(i), readers := pc.readers + {i}))
      || (s.MayRefuse(Reader(i, pc.task.job)) && Moves(s, s', p, giveUp))
    case CheckSecond(i) =>
      || (s.CanTake(Mutation(i)) && Moves(s, s', p, pc.(phase := Pick, held := pc.held + {i})))
      || (s.MayRefuse(Mutation(i)) && Moves(s, s', p, giveUp))
    case _ => false
  }

  /** validateConfig looks each call's Interface and Method up in the store; there must be a call. */
  ghost predicate ValidateStep(m: Mode, s: State, s': State, p: nat)
    requires p < |s.procs| && s.procs[p].pc.Mutate? && s.procs[p].pc.phase.Validate?
  {
    var pc := s.procs[p].pc;
    || Moves(s, s', p, pc.(phase := GiveBack(false)))
    || (!pc.task.DeleteJob? &&
        var k, calls := pc.phase.k, pc.task.next.calls;
        || (k < |calls| && s.Resolves(calls[k]) && Moves(s, s', p, pc.(phase := Validate(k + 1))))
        || (k == |calls| > 0
            && Moves(s, s', p, pc.(phase := if m.ls && pc.task.CreateJob? then ClearDoc else SaveDoc))))
  }

  /** Releasing the readers and the Job lock. */
  ghost predicate BackStep(s: State, s': State, p: nat)
    requires p < |s.procs| && s.procs[p].pc.Mutate?
  {
    var pc := s.procs[p].pc;
    || (pc.readers == {} && Drops(s, s', p, JobLock(pc.task.job), Done))
    || exists i :: i in pc.readers && Drops(s, s', p, Reader(i, pc.task.job), pc.(readers := pc.readers - {i}))
  }

  /** createLs first removes what an earlier, unfinished create left behind. */
  ghost predicate ClearStep(s: State, s': State, p: nat)
    requires p < |s.procs| && s.procs[p].pc.Mutate?
  {
    var pc := s.procs[p].pc;
    var job := pc.task.job;
    match pc.phase
    case ClearDoc =>
      || Moves(s, s', p, pc.(phase := GiveBack(false)))
      || (!(job in s.docs && job in s.index)
          && s' == s.(docs := s.docs - {job}, procs := s.procs[p := Proc(true, pc.(phase := ClearIndex))]))
    case ClearIndex =>
      || Moves(s, s', p, pc.(phase := GiveBack(false)))
      || s' == s.(index := s.index - {job}, procs := s.procs[p := Proc(true, pc.(phase := SaveDoc))])
    case _ => false
  }

  /** Writing the index, the end of a create, and a deletion, which may fail before any removal. */
  ghost predicate IndexStep(m: Mode, s: State, s': State, p: nat)
    requires p < |s.procs| && s.procs[p].pc.Mutate?
  {
    var pc := s.procs[p].pc;
    var job := pc.task.job;
    var giveUp := pc.(phase := GiveBack(false));
    match pc.phase
    case SaveIndex =>
      || (pc.current.Some? &&
          s' == s.(index := s.index[job := FromDocument(pc.current.value)],
                   procs := s.procs[p := Proc(true,
                     pc.(phase := if pc.task.CreateJob? then Settle else GiveBack(true)))]))
      || ((pc.task.CreateJob? || m.indexFaults) && Moves(s, s', p, giveUp))
    case Settle =>
      Moves(s, s', p, pc.(phase := GiveBack(true))) || Moves(s, s', p, giveUp) || Moves(s, s', p, pc.(phase := UndoDoc))
    case RemoveDoc =>
      || Moves(s, s', p, giveUp)
      || s' == s.(docs := s.docs - {job},
                  procs := s.procs[p := Proc(true, pc.(phase := if m.ls then RemoveIndex else GiveBack(true)))])
    case RemoveIndex =>
      || Moves(s, s', p, giveUp)
      || s' == s.(index := s.index - {job}, procs := s.procs[p := Proc(true, pc.(phase := GiveBack(true)))])
    case _ => UndoStep(m, s, s', p)
  }

  /** Undoing a create whose service could not be installed; a failure to do so is ignored. */
  ghost predicate UndoStep(m: Mode, s: State, s': State, p: nat)
    requires p < |s.procs| && s.procs[p].pc.Mutate?
  {
    var pc := s.procs[p].pc;
    var job := pc.task.job;
    var giveUp := pc.(phase := GiveBack(false));
    match pc.phase
    case UndoDoc =>
      || Moves(s, s', p, giveUp)
      || s' == s.(docs := s.docs - {job},
                  procs := s.procs[p := Proc(true, if m.ls then pc.(phase := UndoIndex) else giveUp)])
    case UndoIndex =>
      || Moves(s, s', p, giveUp)
      || s' == s.(index := s.index - {job}, procs := s.procs[p := Proc(true, giveUp)])
    case _ => false
  }

  ghost predicate JobStep(m: Mode, s: State, s': State, p: nat)
    requires p < |s.procs| && s.procs[p].pc.Mutate?
  {
    match s.procs[p].pc.phase
    case Validate(_) => ValidateStep(m, s, s', p)
    case GiveBack(_) => BackStep(s, s', p)
    case SaveDoc => Moves(s, s', p, s.procs[p].pc.(phase := GiveBack(false))) || SaveStep(m, s, s', p)
    case _ => GateStep(m, s, s', p) || HoldStep(s, s', p) || ClearStep(s, s', p) || IndexStep(m, s, s', p)
  }

  /** create, or save under the revision read before; an update that changes nothing only
      brings the index up to date. */
  ghost predicate SaveStep(m: Mode, s: State, s': State, p: nat)
    requires p < |s.procs| && s.procs[p].pc.Mutate?
  {
    var pc := s.procs[p].pc;
    var job := pc.task.job;
    var after := if m.ls then SaveIndex else if pc.task.CreateJob? then Settle else GiveBack(true);
    match pc.task
    case CreateJob(_, next) =>
      job !in s.docs &&
      var doc := Document(job, 1, next);
      s' == s.(docs := s.docs[job := doc], procs := s.procs[p := Proc(true, pc.(phase := after, current := Some(doc)))])
    case UpdateJob(_, next) =>
      pc.current.Some? &&
      if next == pc.current.value.config then Moves(s, s', p, pc.(phase := after))
      else
        job in s.docs && s.docs[job].revision == pc.current.value.revision &&
        var doc := Document(job, pc.current.value.revision + 1, next);
        s' == s.(docs := s.docs[job := doc],
                 procs := s.procs[p := Proc(true, pc.(phase := after, current := Some(doc)))])
    case DeleteJob(_) => false
  }

  // ---------------------------------------------------------------- Interface mutations

  predicate Refers(calls: seq<Reference>, id: Id) {
    exists k :: 0 <= k < |calls| && calls[k].interfaceId == id
  }

  /** Whether the reference search reports Job j, as listed, for the Interface. The scan of the
      generic product also reports, for every Interface, a document that it cannot read: one that
      is gone by now, or one with calls that it takes for invalid. */
  predicate Reports(m: Mode, s: State, j: Job, id: Id) {
    if m.ls then j in s.docs && (j in s.index ==> Refers(s.index[j].methodReferences, id))
    else j in s.docs && ScanReads(s.docs[j].config.calls) ==> id in InterfacesOf(s.docs[j].config.calls)
  }

  predicate Allowed(change: Change, current: Interface, found: set<Job>) {
    && !current.builtIn
    && (found != {} ==> change.Edit? && change.next.shape == current.shape && change.next.methods == current.methods)
  }

  /** The Jobs that have published a reader lock for the Interface. */
  function ReadersOf(locks: map<Lock, nat>, id: Id): set<Job> {
    set n | n in locks && n.Reader? && n.id == id :: n.job
  }

  /** The fence, and the probe of every reader lock listed for the Interface. */
  ghost predicate ReaderStep(s: State, s': State, p: nat)
    requires p < |s.procs| && s.procs[p].pc.Guarding?
  {
    var pc := s.procs[p].pc;
    var id := pc.id;
    var giveUp := pc.(step := Leave(false));
    match pc.step
    case TakeFence =>
      || Takes(s, s', p, Mutation(id), pc.(step := ListReaders))
      || (s.MayRefuse(Mutation(id)) && Moves(s, s', p, Done))
    case ListReaders =>
      Moves(s, s', p, pc.(step := ProbeReaders, left := ReadersOf(s.locks, id)))
    case ProbeReaders =>
      || (pc.left == {} && Moves(s, s', p, pc.(step := ListJobs(false))))
      || exists j :: j in pc.left &&
           (|| Takes(s, s', p, Reader(id, j), pc.(step := DropReader(j), left := pc.left - {j}))
            || (s.MayRefuse(Reader(id, j)) && Moves(s, s', p, giveUp)))
    case DropReader(j) =>
      Drops(s, s', p, Reader(id, j), pc.(step := ProbeReaders)) || Moves(s, s', p, giveUp)
    case _ => false
  }

  /** The two reference searches, and the locks of the Jobs the first one found. */
  ghost predicate SearchStep(m: Mode, s: State, s': State, p: nat)
    requires p < |s.procs| && s.procs[p].pc.Guarding?
  {
    var pc := s.procs[p].pc;
    match pc.step
    case ListJobs(again) =>
      Moves(s, s', p, pc.(step := ScanJobs(again), left := if m.ls then s.index.Keys else s.docs.Keys, found := {}))
    case ScanJobs(again) =>
      || (pc.left == {} && Moves(s, s', p, pc.(step := if again then ReadStore else TakeJobs)))
      || exists j :: j in pc.left &&
           Moves(s, s', p, pc.(left := pc.left - {j},
                               found := if Reports(m, s, j, pc.id) then pc.found + {j} else pc.found))
    case TakeJobs =>
      || (pc.found <= pc.taken && Moves(s, s', p, pc.(step := ListJobs(true))))
      || exists j :: j in pc.found && j !in pc.taken &&
           (|| Takes(s, s', p, JobLock(j), pc.(taken := pc.taken + {j}))
            || (s.MayRefuse(JobLock(j)) && Moves(s, s', p, pc.(step := Leave(false)))))
    case _ => false
  }

  /** The guarded action on the store, and the releases after it. */
  ghost predicate ActionStep(s: State, s': State, p: nat)
    requires p < |s.procs| && s.procs[p].pc.Guarding?
  {
    var pc := s.procs[p].pc;
    var id := pc.id;
    var giveUp := pc.(step := Leave(false));
    match pc.step
    case ReadStore =>
      if id in s.store then Moves(s, s', p, pc.(step := WriteStore(s.store[id]))) else Moves(s, s', p, giveUp)
    case WriteStore(current) =>
      || Moves(s, s', p, giveUp)
      || (Allowed(pc.change, current, pc.found) &&
          s' == s.(store := if pc.change.Remove? then s.store - {id} else s.store[id := pc.change.next],
                   procs := s.procs[p := Proc(true, pc.(step := Leave(true)))]))
    case Leave(_) =>
      || (pc.taken == {} && Drops(s, s', p, Mutation(id), Done))
      || (exists j :: j in pc.taken && Drops(s, s', p, JobLock(j), pc.(taken := pc.taken - {j})))
      || Moves(s, s', p, Done)
    case _ => false
  }

  ghost predicate GuardStep(m: Mode, s: State, s': State, p: nat)
    requires p < |s.procs| && s.procs[p].pc.Guarding?
  {
    ReaderStep(s, s', p) || SearchStep(m, s, s', p) || ActionStep(s, s', p)
  }

  // ---------------------------------------------------------------- package sessions

  ghost predicate SessionStep(m: Mode, s: State, s': State, p: nat)
    requires p < |s.procs| && s.procs[p].pc.Session?
  {
    match s.procs[p].pc.state
    case Closing(todo) => CloseStep(s, s', p, todo)
    case _ => OpenStep(m, s, s', p)
  }

  ghost predicate OpenStep(m: Mode, s: State, s': State, p: nat)
    requires p < |s.procs| && s.procs[p].pc.Session?
  {
    var pc := s.procs[p].pc;
    match pc.state
    case Enter =>
      || Takes(s, s', p, Fence, pc.(state := Open))
      || (s.MayRefuse(Fence) && Moves(s, s', p, Done))
    case Open =>
      || Moves(s, s', p, pc.(state := Closing(pc.handles)))
      || (exists j :: j !in pc.handles &&
            (|| Takes(s, s', p, JobLock(j), pc.(handles := pc.handles + {j}))
             || (s.MayRefuse(JobLock(j)) && Moves(s, s', p, pc.(state := Closing(pc.handles))))))
      || (!m.ls && exists j :: j in pc.handles && SessionDeletes(s, s', p, j))
    case Closing(_) => false
  }

  /** releaseAll: every handle is tried once; the fence goes only after the last handle. A
      release that throws keeps its handle, whether or not its file is gone; the caller may
      retry. */
  ghost predicate CloseStep(s: State, s': State, p: nat, todo: set<Job>)
    requires p < |s.procs| && s.procs[p].pc.Session?
  {
    var pc := s.procs[p].pc;
    if todo != {} then
      exists j :: j in todo &&
        (|| (s.Held(JobLock(j), p)
             && Gone(s, s', p, JobLock(j), pc.(state := Closing(todo - {j}), handles := pc.handles - {j})))
         // A release that is tried again after its file has gone returns quietly.
         || (!s.Held(JobLock(j), p) && Moves(s, s', p, pc.(state := Closing(todo - {j}), handles := pc.handles - {j})))
         || Drops(s, s', p, JobLock(j), pc.(state := Closing(todo - {j}))))
    else if pc.handles == {} then Drops(s, s', p, Fence, Done) || Drops(s, s', p, Fence, pc)
    else Moves(s, s', p, pc.(state := Closing(pc.handles)))
  }

  /** delete through a session, which first asserts that the Job lock is still its own. */
  ghost predicate SessionDeletes(s: State, s': State, p: nat, j: Job) {
    s.Held(JobLock(j), p) && s' == s.(docs := s.docs - {j})
  }

  // ---------------------------------------------------------------- runs

  ghost predicate Acts(m: Mode, s: State, s': State, p: nat) {
    s.Alive(p) &&
    match s.procs[p].pc
    case Mutate(_, _, _, _, _, _) => JobStep(m, s, s', p)
    case Guarding(_, _, _, _, _, _) => GuardStep(m, s, s', p)
    case Session(_, _) => SessionStep(m, s, s', p)
    case Done => false
  }

  /** A document has been saved whose index entry is still to be written. */
  predicate Saving(pc: PC) {
    pc.Mutate? && pc.task.UpdateJob? && pc.phase.SaveIndex?
  }

  ghost predicate Dies(m: Mode, s: State, s': State, p: nat) {
    && s.Alive(p) && (m.indexFaults || !Saving(s.procs[p].pc))
    && s' == s.(procs := s.procs[p := s.procs[p].(alive := false)])
  }

  /** createInterface only ever stores an id that is not in use. */
  ghost predicate Registers(s: State, s': State) {
    exists id :: id !in s.store && id in s'.store && s' == s.(store := s.store[id := s'.store[id]])
  }

  ghost predicate Next(m: Mode, s: State, s': State) {
    Registers(s, s') || exists p: nat :: Acts(m, s, s', p) || Dies(m, s, s', p)
  }

  predicate Starting(pc: PC) {
    match pc
    case Done => true
    case Mutate(_, phase, todo, held, readers, current) =>
      phase.FenceFirst? && held == {} && readers == {} && current.None?
    case Guarding(_, _, step, _, _, taken) => step.TakeFence? && taken == {}
    case Session(state, handles) => state.Enter? && handles == {}
  }

  ghost predicate Consistent(m: Mode, s: State) {
    && (forall j, k :: j in s.docs && Registered(m, s, j) && 0 <= k < |s.docs[j].config.calls|
          ==> s.Resolves(s.docs[j].config.calls[k]))
  }

  ghost predicate Indexed(m: Mode, s: State) {
    m.ls ==> forall j :: j in s.docs && j in s.index ==> s.index[j] == FromDocument(s.docs[j])
  }

  /** Every process is about to begin; locks left by dead processes may lie about. */
  ghost predicate Init(m: Mode, s: State) {
    && (forall p {:trigger s.procs[p]} :: 0 <= p < |s.procs| ==> Starting(s.procs[p].pc))
    && (forall n :: n in s.locks ==> !s.Alive(s.locks[n]))
    && Consistent(m, s) && Indexed(m, s)
  }

  ghost predicate IsRun(m: Mode, run: seq<State>) {
    && |run| > 0 && Init(m, run[0])
    && forall i {:trigger run[i]} :: 0 <= i < |run| - 1 ==> Next(m, run[i], run[i + 1])
  }
}
