/** A Job mutation or an Interface mutation that meets no lock and no failing file runs to its end,
    does what it was asked for, and leaves no lock behind. */
module HandshakeAlone {
  import opened Options
  import opened JobIndex
  import opened Handshake
  import opened HandshakeProof
  import F = HandshakeFault

  predicate Working(t: State, p: nat, pc: PC) { p < |t.procs| && t.procs[p] == Proc(true, pc) }

  /** Process p at another place, and nothing else changed. */
  function Put(t: State, p: nat, pc: PC): State
    requires p < |t.procs|
  {
    t.(procs := t.procs[p := Proc(true, pc)])
  }

  /** Nothing but p and the locks has changed. */
  ghost predicate Same(t: State, u: State, p: nat, pc: PC) {
    p < |t.procs| && u == Put(t, p, pc).(locks := u.locks)
  }

  // ---------------------------------------------------------------- single steps

  lemma Begin(m: Mode, s: State)
    ensures F.Reach(m, s, s)
  {
    assert F.Path(m, [s], s, s);
  }

  lemma Gate(m: Mode, s: State, t: State, u: State, p: nat)
    requires F.Reach(m, s, t) && t.Alive(p) && t.procs[p].pc.Mutate?
    requires t.procs[p].pc.phase in {FenceFirst, TakeJob, FenceSecond, ReadDoc} && GateStep(m, t, u, p)
    ensures F.Reach(m, s, u)
  {
    hide F.Reach, GateStep;
    F.Do(m, s, t, u, p);
  }

  lemma Hold(m: Mode, s: State, t: State, u: State, p: nat)
    requires F.Reach(m, s, t) && t.Alive(p) && t.procs[p].pc.Mutate?
    requires HandshakeProof.Holding(t.procs[p].pc.phase) && HoldStep(t, u, p)
    ensures F.Reach(m, s, u)
  {
    hide F.Reach, HoldStep;
    F.Do(m, s, t, u, p);
  }

  lemma Files(m: Mode, s: State, t: State, u: State, p: nat)
    requires F.Reach(m, s, t) && t.Alive(p) && t.procs[p].pc.Mutate?
    requires match t.procs[p].pc.phase
             case Validate(_) => ValidateStep(m, t, u, p)
             case GiveBack(_) => BackStep(t, u, p)
             case SaveDoc => SaveStep(m, t, u, p)
             case ClearDoc => ClearStep(t, u, p)
             case ClearIndex => ClearStep(t, u, p)
             case SaveIndex => IndexStep(m, t, u, p)
             case Settle => IndexStep(m, t, u, p)
             case RemoveDoc => IndexStep(m, t, u, p)
             case RemoveIndex => IndexStep(m, t, u, p)
             case _ => false
    ensures F.Reach(m, s, u)
  {
    hide F.Reach, ValidateStep, BackStep, SaveStep, ClearStep, IndexStep;
    F.Do(m, s, t, u, p);
  }

  lemma Guard(m: Mode, s: State, t: State, u: State, p: nat)
    requires F.Reach(m, s, t) && t.Alive(p) && t.procs[p].pc.Guarding?
    requires ReaderStep(t, u, p) || SearchStep(m, t, u, p) || ActionStep(t, u, p)
    ensures F.Reach(m, s, u)
  {
    hide F.Reach, ReaderStep, SearchStep, ActionStep;
    F.Do(m, s, t, u, p);
  }

  // ---------------------------------------------------------------- a Job mutation

  /** The locks are the Job's and those of the readers published so far, all of them p's. */
  ghost predicate OwnLocks(t: State, p: nat, job: Job, readers: set<Id>) {
    forall n :: && (n in t.locks <==> n == JobLock(job) || (n.Reader? && n.job == job && n.id in readers))
                && (n in t.locks ==> t.locks[n] == p)
  }

  lemma TakesJob(m: Mode, s: State, p: nat, task: Task) returns (u: State)
    requires s.locks == map[] && Working(s, p, Mutate(task, FenceFirst, {}, {}, {}, None))
    ensures F.Reach(m, s, u) && Same(s, u, p, Mutate(task, FenceSecond, {}, {}, {}, None))
    ensures OwnLocks(u, p, task.job, {})
  {
    Begin(m, s);
    hide F.Reach;
    var a := Put(s, p, Mutate(task, TakeJob, {}, {}, {}, None));
    Gate(m, s, s, a, p);
    u := Put(s, p, Mutate(task, FenceSecond, {}, {}, {}, None)).(locks := map[JobLock(task.job) := p]);
    Gate(m, s, a, u, p);
  }

  /** One more Interface is held. */
  lemma HoldsOne(m: Mode, s: State, t: State, p: nat, task: Task, todo: set<Id>, held: set<Id>,
                 current: Option<Document>, id: Id) returns (u: State)
    requires F.Reach(m, s, t) && Working(t, p, Mutate(task, Pick, todo, held, held, current))
    requires OwnLocks(t, p, task.job, held) && id in todo
    ensures F.Reach(m, s, u) && OwnLocks(u, p, task.job, held + {id})
    ensures Same(t, u, p, Mutate(task, Pick, todo - {id}, held + {id}, held + {id}, current))
  {
    hide F.Reach;
    if id in held {
      assert held + {id} == held;
      u := Put(t, p, Mutate(task, Pick, todo - {id}, held, held, current));
      Hold(m, s, t, u, p);
    } else {
      var a := Put(t, p, Mutate(task, CheckFirst(id), todo - {id}, held, held, current));
      Hold(m, s, t, a, p);
      var b := Put(t, p, Mutate(task, TakeReader(id), todo - {id}, held, held, current));
      Hold(m, s, a, b, p);
      u := Publishes(m, s, b, p, task, todo - {id}, held, current, id);
    }
  }

  lemma Publishes(m: Mode, s: State, t: State, p: nat, task: Task, todo: set<Id>, held: set<Id>,
                  current: Option<Document>, id: Id) returns (u: State)
    requires F.Reach(m, s, t) && Working(t, p, Mutate(task, TakeReader(id), todo, held, held, current))
    requires OwnLocks(t, p, task.job, held) && id !in held
    ensures F.Reach(m, s, u) && OwnLocks(u, p, task.job, held + {id})
    ensures Same(t, u, p, Mutate(task, Pick, todo, held + {id}, held + {id}, current))
  {
    hide F.Reach;
    var more := t.locks[Reader(id, task.job) := p];
    var a := Put(t, p, Mutate(task, CheckSecond(id), todo, held, held + {id}, current)).(locks := more);
    Hold(m, s, t, a, p);
    u := Put(t, p, Mutate(task, Pick, todo, held + {id}, held + {id}, current)).(locks := more);
    Hold(m, s, a, u, p);
  }

  /** All Interfaces are held. */
  lemma {:induction false} HoldsAll(m: Mode, s: State, t: State, p: nat, task: Task, todo: set<Id>, held: set<Id>,
                                    current: Option<Document>) returns (u: State)
    requires F.Reach(m, s, t) && Working(t, p, Mutate(task, Pick, todo, held, held, current))
    requires OwnLocks(t, p, task.job, held)
    ensures F.Reach(m, s, u) && OwnLocks(u, p, task.job, held + todo)
    ensures Same(t, u, p, Mutate(task, Validate(0), {}, held + todo, held + todo, current))
    decreases |todo|
  {
    hide F.Reach;
    if todo == {} {
      assert held + todo == held;
      u := Put(t, p, Mutate(task, Validate(0), {}, held, held, current));
      Hold(m, s, t, u, p);
    } else {
      var id :| id in todo;
      var a := HoldsOne(m, s, t, p, task, todo, held, current, id);
      assert held + {id} + (todo - {id}) == held + todo;
      u := HoldsAll(m, s, a, p, task, todo - {id}, held + {id}, current);
    }
  }

  /** Every call is found in the store. */
  lemma {:induction false} ChecksAll(m: Mode, s: State, t: State, p: nat, pc: PC) returns (u: State)
    requires F.Reach(m, s, t) && Working(t, p, pc) && pc.Mutate? && !pc.task.DeleteJob? && pc.phase.Validate?
    requires pc.phase.k <= |pc.task.next.calls| && pc.task.next.calls != []
    requires forall k :: 0 <= k < |pc.task.next.calls| ==> t.Resolves(pc.task.next.calls[k])
    ensures F.Reach(m, s, u)
    ensures u == Put(t, p, pc.(phase := if m.ls && pc.task.CreateJob? then ClearDoc else SaveDoc))
    decreases |pc.task.next.calls| - pc.phase.k
  {
    hide F.Reach;
    var k, calls := pc.phase.k, pc.task.next.calls;
    if k == |calls| {
      u := Put(t, p, pc.(phase := if m.ls && pc.task.CreateJob? then ClearDoc else SaveDoc));
      Files(m, s, t, u, p);
    } else {
      var a := Put(t, p, pc.(phase := Validate(k + 1)));
      Files(m, s, t, a, p);
      u := ChecksAll(m, s, a, p, pc.(phase := Validate(k + 1)));
    }
  }

  /** One reader is given back. */
  lemma ReturnsOne(m: Mode, s: State, t: State, p: nat, pc: PC, id: Id) returns (u: State)
    requires F.Reach(m, s, t) && Working(t, p, pc) && pc.Mutate? && pc.phase.GiveBack?
    requires OwnLocks(t, p, pc.task.job, pc.readers) && id in pc.readers
    ensures F.Reach(m, s, u) && OwnLocks(u, p, pc.task.job, pc.readers - {id})
    ensures Same(t, u, p, pc.(readers := pc.readers - {id}))
  {
    hide F.Reach;
    u := Put(t, p, pc.(readers := pc.readers - {id})).(locks := t.locks - {Reader(id, pc.task.job)});
    Files(m, s, t, u, p);
  }

  lemma ReturnsJob(m: Mode, s: State, t: State, p: nat, pc: PC) returns (u: State)
    requires F.Reach(m, s, t) && Working(t, p, pc) && pc.Mutate? && pc.phase.GiveBack? && pc.readers == {}
    requires OwnLocks(t, p, pc.task.job, {})
    ensures F.Reach(m, s, u) && u == Put(t, p, Done).(locks := map[])
  {
    hide F.Reach;
    assert t.locks - {JobLock(pc.task.job)} == map[];
    u := Put(t, p, Done).(locks := map[]);
    Files(m, s, t, u, p);
  }

  /** All locks are given back. */
  lemma {:induction false} Returns(m: Mode, s: State, t: State, p: nat, pc: PC) returns (u: State)
    requires F.Reach(m, s, t) && Working(t, p, pc) && pc.Mutate? && pc.phase.GiveBack?
    requires OwnLocks(t, p, pc.task.job, pc.readers)
    ensures F.Reach(m, s, u) && u == Put(t, p, Done).(locks := map[])
    decreases |pc.readers|
  {
    hide F.Reach, OwnLocks;
    if pc.readers == {} {
      u := ReturnsJob(m, s, t, p, pc);
    } else {
      var id :| id in pc.readers;
      var a := ReturnsOne(m, s, t, p, pc, id);
      u := Returns(m, s, a, p, pc.(readers := pc.readers - {id}));
    }
  }

  // ---------------------------------------------------------------- the files

  /** What withMutation and the operation ask of a mutation that nobody disturbs. */
  ghost predicate Acceptable(m: Mode, s: State, task: Task) {
    match task
    case DeleteJob(j) => if m.ls then j in s.index else j in s.docs
    case CreateJob(j, next) => !Registered(m, s, j) && Callable(s, next.calls)
    case UpdateJob(j, next) => j in s.docs && s.docs[j].config.calls != [] && Callable(s, next.calls)
  }

  ghost predicate Callable(s: State, calls: seq<MethodCall>) {
    calls != [] && forall k :: 0 <= k < |calls| ==> s.Resolves(calls[k])
  }

  /** Of documents and index only those of the Job have changed, and as the task says. */
  ghost predicate Stored(m: Mode, t: State, u: State, p: nat, task: Task) {
    && OnlyKey(t.docs, u.docs, task.job) && OnlyKey(t.index, u.index, task.job)
    && u.store == t.store && Achieved(m, u, task)
    && |u.procs| == |t.procs| && p < |t.procs| && u.procs == t.procs[p := u.procs[p]]
  }

  ghost predicate Succeeded(t: State, p: nat, task: Task, held: set<Id>) {
    p < |t.procs| && t.procs[p].alive && t.procs[p].pc.Mutate? && t.procs[p].pc.phase == GiveBack(true)
    && t.procs[p].pc.task == task && t.procs[p].pc.readers == held
  }

  ghost predicate Ended(t: State, p: nat, task: Task) {
    p < |t.procs| && t.procs[p].pc.Mutate? && Succeeded(t, p, task, t.procs[p].pc.readers)
    && OwnLocks(t, p, task.job, t.procs[p].pc.readers)
  }

  lemma DeletesJob(m: Mode, s: State, t: State, p: nat, task: Task) returns (u: State)
    requires F.Reach(m, s, t) && Working(t, p, Mutate(task, RemoveDoc, {}, {}, {}, None)) && task.DeleteJob?
    ensures F.Reach(m, s, u) && u.locks == t.locks && Succeeded(u, p, task, {}) && Stored(m, t, u, p, task)
  {
    hide F.Reach;
    var pc := t.procs[p].pc;
    var a := Put(t, p, pc.(phase := if m.ls then RemoveIndex else GiveBack(true))).(docs := t.docs - {task.job});
    Files(m, s, t, a, p);
    u := a;
    if m.ls {
      u := Put(a, p, pc.(phase := GiveBack(true))).(index := t.index - {task.job});
      Files(m, s, a, u, p);
    }
  }

  /** createLs clears what is left of the Job, then writes document and index. */
  lemma Clears(m: Mode, s: State, t: State, p: nat, pc: PC) returns (u: State)
    requires F.Reach(m, s, t) && Working(t, p, pc) && pc.Mutate? && pc.phase.ClearDoc?
    requires !(pc.task.job in t.docs && pc.task.job in t.index)
    ensures F.Reach(m, s, u)
    ensures u == Put(t, p, pc.(phase := SaveDoc)).(docs := t.docs - {pc.task.job}, index := t.index - {pc.task.job})
  {
    hide F.Reach;
    var a := Put(t, p, pc.(phase := ClearIndex)).(docs := t.docs - {pc.task.job});
    Files(m, s, t, a, p);
    u := Put(a, p, pc.(phase := SaveDoc)).(index := t.index - {pc.task.job});
    Files(m, s, a, u, p);
  }

  /** In LS the index follows. */
  lemma Indexes(m: Mode, s: State, t: State, p: nat, pc: PC, next: JobPhase) returns (u: State)
    requires F.Reach(m, s, t) && pc.Mutate? && pc.current.Some?
    requires Working(t, p, pc.(phase := if m.ls then SaveIndex else next))
    requires next == if pc.task.CreateJob? then Settle else GiveBack(true)
    ensures F.Reach(m, s, u)
    ensures u == Put(t, p, pc.(phase := next))
                 .(index := if m.ls then t.index[pc.task.job := FromDocument(pc.current.value)] else t.index)
  {
    hide F.Reach, FromDocument;
    u := Put(t, p, pc.(phase := next));
    assert t.procs[p := t.procs[p]] == t.procs;
    if m.ls {
      u := u.(index := t.index[pc.task.job := FromDocument(pc.current.value)]);
      Files(m, s, t, u, p);
    }
  }

  lemma SavesNew(m: Mode, s: State, t: State, p: nat, pc: PC) returns (u: State)
    requires F.Reach(m, s, t) && Working(t, p, pc) && pc.Mutate? && pc.phase.SaveDoc? && pc.task.CreateJob?
    requires pc.task.job !in t.docs && pc.task.next.calls != []
    ensures F.Reach(m, s, u) && u.locks == t.locks && Succeeded(u, p, pc.task, pc.readers)
    ensures Stored(m, t, u, p, pc.task)
  {
    hide F.Reach, FromDocument;
    var job := pc.task.job;
    var doc := Document(job, 1, pc.task.next);
    var more := pc.(current := Some(doc));
    var a := Put(t, p, more.(phase := if m.ls then SaveIndex else Settle)).(docs := t.docs[job := doc]);
    Files(m, s, t, a, p);
    var b := Indexes(m, s, a, p, more, Settle);
    u := Put(b, p, more.(phase := GiveBack(true)));
    Files(m, s, b, u, p);
  }

  lemma SavesAgain(m: Mode, s: State, t: State, p: nat, pc: PC) returns (u: State)
    requires F.Reach(m, s, t) && Working(t, p, pc) && pc.Mutate? && pc.phase.SaveDoc? && pc.task.UpdateJob?
    requires pc.task.job in t.docs && pc.current == Some(t.docs[pc.task.job]) && pc.task.next.calls != []
    ensures F.Reach(m, s, u) && u.locks == t.locks && Succeeded(u, p, pc.task, pc.readers)
    ensures Stored(m, t, u, p, pc.task)
  {
    hide F.Reach, FromDocument;
    var job, before := pc.task.job, pc.current.value;
    var doc := if pc.task.next == before.config then before else Document(job, before.revision + 1, pc.task.next);
    var more := pc.(current := Some(doc));
    assert t.docs[job := before] == t.docs;
    var a := Put(t, p, more.(phase := if m.ls then SaveIndex else GiveBack(true))).(docs := t.docs[job := doc]);
    Files(m, s, t, a, p);
    u := Indexes(m, s, a, p, more, GiveBack(true));
  }

  // ---------------------------------------------------------------- the whole mutation

  /** Through the gate and holdInterfaces up to the first write. */
  lemma Holds(m: Mode, s: State, t: State, p: nat, task: Task, current: Option<Document>, todo: set<Id>)
      returns (u: State)
    requires F.Reach(m, s, t) && Working(t, p, Mutate(task, Pick, todo, {}, {}, current))
    requires OwnLocks(t, p, task.job, {}) && !task.DeleteJob? && Callable(t, task.next.calls)
    ensures F.Reach(m, s, u) && OwnLocks(u, p, task.job, todo)
    ensures Same(t, u, p, Mutate(task, if m.ls && task.CreateJob? then ClearDoc else SaveDoc, {}, todo, todo, current))
  {
    hide F.Reach;
    assert {} + todo == todo;
    var a := HoldsAll(m, s, t, p, task, todo, {}, current);
    u := ChecksAll(m, s, a, p, a.procs[p].pc);
  }

  lemma Creates(m: Mode, s: State, t: State, p: nat, task: Task) returns (u: State)
    requires F.Reach(m, s, t) && Working(t, p, Mutate(task, FenceSecond, {}, {}, {}, None)) && task.CreateJob?
    requires OwnLocks(t, p, task.job, {}) && Acceptable(m, t, task)
    ensures F.Reach(m, s, u) && Stored(m, t, u, p, task)
    ensures Ended(u, p, task)
  {
    hide F.Reach, FromDocument;
    var ids := InterfacesOf(task.next.calls);
    var a := Put(t, p, Mutate(task, Pick, ids, {}, {}, None));
    Gate(m, s, t, a, p);
    var b := Holds(m, s, a, p, task, None, ids);
    if m.ls { b := Clears(m, s, b, p, b.procs[p].pc); }
    u := SavesNew(m, s, b, p, b.procs[p].pc);
  }

  lemma Updates(m: Mode, s: State, t: State, p: nat, task: Task) returns (u: State)
    requires F.Reach(m, s, t) && Working(t, p, Mutate(task, FenceSecond, {}, {}, {}, None)) && task.UpdateJob?
    requires OwnLocks(t, p, task.job, {}) && Acceptable(m, t, task)
    ensures F.Reach(m, s, u) && Stored(m, t, u, p, task)
    ensures Ended(u, p, task)
  {
    hide F.Reach, FromDocument;
    var doc := t.docs[task.job];
    var ids := InterfacesOf(doc.config.calls) + InterfacesOf(task.next.calls);
    var a := Put(t, p, Mutate(task, ReadDoc, {}, {}, {}, None));
    Gate(m, s, t, a, p);
    var b := Put(t, p, Mutate(task, Pick, ids, {}, {}, Some(doc)));
    Gate(m, s, a, b, p);
    var d := Holds(m, s, b, p, task, Some(doc), ids);
    u := SavesAgain(m, s, d, p, d.procs[p].pc);
  }

  lemma Deletes(m: Mode, s: State, t: State, p: nat, task: Task) returns (u: State)
    requires F.Reach(m, s, t) && Working(t, p, Mutate(task, FenceSecond, {}, {}, {}, None)) && task.DeleteJob?
    requires OwnLocks(t, p, task.job, {}) && Acceptable(m, t, task)
    ensures F.Reach(m, s, u) && Stored(m, t, u, p, task)
    ensures Ended(u, p, task)
  {
    hide F.Reach, FromDocument;
    var a := Put(t, p, Mutate(task, ReadDoc, {}, {}, {}, None));
    Gate(m, s, t, a, p);
    var b := Put(t, p, Mutate(task, RemoveDoc, {}, {}, {}, None));
    Gate(m, s, a, b, p);
    u := DeletesJob(m, s, b, p, task);
  }

  /** Alone, every acceptable Job mutation reaches its end: the Job is created, updated or deleted, no
      other Job's files have changed, and no lock is left. */
  lemma JobMutationEnds(m: Mode, s: State, p: nat, task: Task) returns (u: State)
    requires s.locks == map[] && Working(s, p, Mutate(task, FenceFirst, {}, {}, {}, None)) && Acceptable(m, s, task)
    ensures F.Reach(m, s, u) && u.locks == map[] && u.procs == s.procs[p := Proc(true, Done)]
    ensures Stored(m, s, u, p, task)
  {
    hide F.Reach, FromDocument;
    var t := TakesJob(m, s, p, task);
    var a;
    match task {
      case CreateJob(_, _) => a := Creates(m, s, t, p, task);
      case UpdateJob(_, _) => a := Updates(m, s, t, p, task);
      case DeleteJob(_) => a := Deletes(m, s, t, p, task);
    }
    u := Returns(m, s, a, p, a.procs[p].pc);
  }

  // ---------------------------------------------------------------- an Interface mutation

  /** The locks are the fence of the Interface and those of the Jobs taken so far, all of them p's. */
  ghost predicate GuardLocks(t: State, p: nat, id: Id, taken: set<Job>) {
    forall n :: && (n in t.locks <==> n == Mutation(id) || (n.JobLock? && n.job in taken))
                && (n in t.locks ==> t.locks[n] == p)
  }

  /** What a search lists, and what it finds. */
  function Listed(m: Mode, s: State): set<Job> { if m.ls then s.index.Keys else s.docs.Keys }

  ghost function Reported(m: Mode, s: State, names: set<Job>, id: Id): set<Job> {
    set j | j in names && Reports(m, s, j, id)
  }

  /** The fence is taken; there are no readers to probe. */
  lemma Fences(m: Mode, s: State, p: nat, id: Id, change: Change) returns (u: State)
    requires s.locks == map[] && Working(s, p, Guarding(id, change, TakeFence, {}, {}, {}))
    ensures F.Reach(m, s, u) && Same(s, u, p, Guarding(id, change, ListJobs(false), {}, {}, {}))
    ensures GuardLocks(u, p, id, {})
  {
    Begin(m, s);
    hide F.Reach;
    var locks := map[Mutation(id) := p];
    var a := Put(s, p, Guarding(id, change, ListReaders, {}, {}, {})).(locks := locks);
    Guard(m, s, s, a, p);
    assert ReadersOf(locks, id) == {};
    var b := Put(a, p, Guarding(id, change, ProbeReaders, {}, {}, {}));
    Guard(m, s, a, b, p);
    u := Put(b, p, Guarding(id, change, ListJobs(false), {}, {}, {}));
    Guard(m, s, b, u, p);
  }

  /** The rest of one search. */
  lemma {:induction false} Scans(m: Mode, s: State, t: State, p: nat, pc: PC, again: bool) returns (u: State)
    requires F.Reach(m, s, t) && Working(t, p, pc) && pc.Guarding? && pc.step == ScanJobs(again)
    ensures F.Reach(m, s, u)
    ensures u == Put(t, p, pc.(step := if again then ReadStore else TakeJobs, left := {},
                               found := pc.found + Reported(m, t, pc.left, pc.id)))
    decreases |pc.left|
  {
    hide F.Reach, Reports;
    var found := Reported(m, t, pc.left, pc.id);
    if pc.left == {} {
      assert pc.found + found == pc.found;
      u := Put(t, p, pc.(step := if again then ReadStore else TakeJobs));
      Guard(m, s, t, u, p);
    } else {
      var j :| j in pc.left;
      var one := if Reports(m, t, j, pc.id) then pc.found + {j} else pc.found;
      var a := Put(t, p, pc.(left := pc.left - {j}, found := one));
      Guard(m, s, t, a, p);
      SameReports(m, t, p, a.procs[p].pc, pc.left - {j}, pc.id);
      assert one + Reported(m, t, pc.left - {j}, pc.id) == pc.found + found;
      u := Scans(m, s, a, p, a.procs[p].pc, again);
    }
  }

  lemma SameReports(m: Mode, t: State, p: nat, pc: PC, names: set<Job>, id: Id)
    requires p < |t.procs|
    ensures Reported(m, Put(t, p, pc), names, id) == Reported(m, t, names, id)
  {
  }

  /** One search, from its listing on. */
  lemma Searches(m: Mode, s: State, t: State, p: nat, pc: PC, again: bool) returns (u: State)
    requires F.Reach(m, s, t) && Working(t, p, pc) && pc.Guarding? && pc.step == ListJobs(again)
    ensures F.Reach(m, s, u)
    ensures u == Put(t, p, pc.(step := if again then ReadStore else TakeJobs, left := {},
                               found := Reported(m, t, Listed(m, t), pc.id)))
  {
    hide F.Reach, Reports;
    var a := Put(t, p, pc.(step := ScanJobs(again), left := Listed(m, t), found := {}));
    Guard(m, s, t, a, p);
    SameReports(m, t, p, a.procs[p].pc, Listed(m, t), pc.id);
    assert {} + Reported(m, t, Listed(m, t), pc.id) == Reported(m, t, Listed(m, t), pc.id);
    u := Scans(m, s, a, p, a.procs[p].pc, again);
  }

  /** The Jobs found are locked. */
  lemma {:induction false} TakesFound(m: Mode, s: State, t: State, p: nat, pc: PC) returns (u: State)
    requires F.Reach(m, s, t) && Working(t, p, pc) && pc.Guarding? && pc.step.TakeJobs?
    requires GuardLocks(t, p, pc.id, pc.taken) && pc.taken <= pc.found
    ensures F.Reach(m, s, u) && GuardLocks(u, p, pc.id, pc.found)
    ensures Same(t, u, p, pc.(step := ListJobs(true), taken := pc.found))
    decreases |pc.found - pc.taken|
  {
    hide F.Reach, GuardLocks;
    if pc.found <= pc.taken {
      assert pc.found == pc.taken;
      u := TakesNoMore(m, s, t, p, pc);
    } else {
      var j :| j in pc.found && j !in pc.taken;
      var more := pc.(taken := pc.taken + {j});
      Fewer(pc.found - more.taken, pc.found - pc.taken);
      var a := TakesOne(m, s, t, p, pc, j);
      u := TakesFound(m, s, a, p, more);
    }
  }

  lemma TakesNoMore(m: Mode, s: State, t: State, p: nat, pc: PC) returns (u: State)
    requires F.Reach(m, s, t) && Working(t, p, pc) && pc.Guarding? && pc.step.TakeJobs?
    requires GuardLocks(t, p, pc.id, pc.taken) && pc.taken == pc.found
    ensures F.Reach(m, s, u) && GuardLocks(u, p, pc.id, pc.found) && u == Put(t, p, pc.(step := ListJobs(true)))
  {
    hide F.Reach;
    u := Put(t, p, pc.(step := ListJobs(true)));
    Guard(m, s, t, u, p);
  }

  lemma Fewer(a: set<Job>, b: set<Job>)
    requires a < b
    ensures |a| < |b|
  {
    assert b == a + (b - a) && |b - a| > 0;
  }

  lemma TakesOne(m: Mode, s: State, t: State, p: nat, pc: PC, j: Job) returns (u: State)
    requires F.Reach(m, s, t) && Working(t, p, pc) && pc.Guarding? && pc.step.TakeJobs?
    requires GuardLocks(t, p, pc.id, pc.taken) && j in pc.found && j !in pc.taken
    ensures F.Reach(m, s, u) && GuardLocks(u, p, pc.id, pc.taken + {j})
    ensures Same(t, u, p, pc.(taken := pc.taken + {j}))
  {
    hide F.Reach;
    u := Put(t, p, pc.(taken := pc.taken + {j})).(locks := t.locks[JobLock(j) := p]);
    Guard(m, s, t, u, p);
  }

  lemma LeavesOne(m: Mode, s: State, t: State, p: nat, pc: PC, j: Job) returns (u: State)
    requires F.Reach(m, s, t) && Working(t, p, pc) && pc.Guarding? && pc.step.Leave?
    requires GuardLocks(t, p, pc.id, pc.taken) && j in pc.taken
    ensures F.Reach(m, s, u) && GuardLocks(u, p, pc.id, pc.taken - {j})
    ensures Same(t, u, p, pc.(taken := pc.taken - {j}))
  {
    hide F.Reach;
    u := Put(t, p, pc.(taken := pc.taken - {j})).(locks := t.locks - {JobLock(j)});
    Guard(m, s, t, u, p);
  }

  lemma LeavesFence(m: Mode, s: State, t: State, p: nat, pc: PC) returns (u: State)
    requires F.Reach(m, s, t) && Working(t, p, pc) && pc.Guarding? && pc.step.Leave?
    requires GuardLocks(t, p, pc.id, {}) && pc.taken == {}
    ensures F.Reach(m, s, u) && u == Put(t, p, Done).(locks := map[])
  {
    hide F.Reach;
    assert t.locks - {Mutation(pc.id)} == map[];
    u := Put(t, p, Done).(locks := map[]);
    Guard(m, s, t, u, p);
  }

  /** The locks are given back. */
  lemma {:induction false} Leaves(m: Mode, s: State, t: State, p: nat, pc: PC) returns (u: State)
    requires F.Reach(m, s, t) && Working(t, p, pc) && pc.Guarding? && pc.step.Leave?
    requires GuardLocks(t, p, pc.id, pc.taken)
    ensures F.Reach(m, s, u) && u == Put(t, p, Done).(locks := map[])
    decreases |pc.taken|
  {
    hide F.Reach, GuardLocks;
    if pc.taken == {} {
      u := LeavesFence(m, s, t, p, pc);
    } else {
      var j :| j in pc.taken;
      var a := LeavesOne(m, s, t, p, pc, j);
      u := Leaves(m, s, a, p, pc.(taken := pc.taken - {j}));
    }
  }

  /** The store after the change. */
  function Changed(store: map<Id, Interface>, id: Id, change: Change): map<Id, Interface> {
    if change.Remove? then store - {id} else store[id := change.next]
  }

  lemma Writes(m: Mode, s: State, t: State, p: nat, pc: PC) returns (u: State)
    requires F.Reach(m, s, t) && Working(t, p, pc) && pc.Guarding? && pc.step.ReadStore? && pc.id in t.store
    requires Allowed(pc.change, t.store[pc.id], pc.found)
    ensures F.Reach(m, s, u)
    ensures u == Put(t, p, pc.(step := Leave(true))).(store := Changed(t.store, pc.id, pc.change))
  {
    hide F.Reach, Allowed;
    var a := Put(t, p, pc.(step := WriteStore(t.store[pc.id])));
    Guard(m, s, t, a, p);
    u := Put(a, p, pc.(step := Leave(true))).(store := Changed(t.store, pc.id, pc.change));
    Guard(m, s, a, u, p);
  }

  /** Alone, every change of a stored Interface that the Jobs found allow reaches its end: the store has
      the new Interface, or no longer has the id, nothing else has changed, and no lock is left. */
  lemma InterfaceMutationEnds(m: Mode, s: State, p: nat, id: Id, change: Change) returns (u: State)
    requires s.locks == map[] && Working(s, p, Guarding(id, change, TakeFence, {}, {}, {})) && id in s.store
    requires Allowed(change, s.store[id], Reported(m, s, Listed(m, s), id))
    ensures F.Reach(m, s, u)
    ensures u == Put(s, p, Done).(store := if change.Remove? then s.store - {id} else s.store[id := change.next])
  {
    hide F.Reach, Allowed, Reports;
    var found := Reported(m, s, Listed(m, s), id);
    var a := Fences(m, s, p, id, change);
    FoundFrom(m, s, a, id);
    var b := Searches(m, s, a, p, a.procs[p].pc, false);
    var d := TakesFound(m, s, b, p, b.procs[p].pc);
    FoundFrom(m, s, d, id);
    var e := Searches(m, s, d, p, d.procs[p].pc, true);
    var f := Writes(m, s, e, p, e.procs[p].pc);
    u := Leaves(m, s, f, p, f.procs[p].pc);
  }

  lemma FoundFrom(m: Mode, s: State, t: State, id: Id)
    requires t.docs == s.docs && t.index == s.index
    ensures Reported(m, t, Listed(m, t), id) == Reported(m, s, Listed(m, s), id)
  {
  }

  // ---------------------------------------------------------------- a package session

  /** The locks are the fence and those of the Jobs, all of them p's. */
  ghost predicate SessionLocks(t: State, p: nat, jobs: set<Job>) {
    forall n :: (n in t.locks <==> n == Fence || (n.JobLock? && n.job in jobs)) && (n in t.locks ==> t.locks[n] == p)
  }

  lemma Serve(m: Mode, s: State, t: State, u: State, p: nat)
    requires F.Reach(m, s, t) && t.Alive(p) && t.procs[p].pc.Session?
    requires if t.procs[p].pc.state.Closing? then CloseStep(t, u, p, t.procs[p].pc.state.todo) else OpenStep(m, t, u, p)
    ensures F.Reach(m, s, u)
  {
    hide F.Reach, OpenStep, CloseStep;
    F.Do(m, s, t, u, p);
  }

  /** Handles of all the Jobs are acquired. */
  lemma {:induction false} Acquires(m: Mode, s: State, t: State, p: nat, jobs: set<Job>, held: set<Job>)
      returns (u: State)
    requires F.Reach(m, s, t) && Working(t, p, Session(Open, held)) && SessionLocks(t, p, held) && held <= jobs
    ensures F.Reach(m, s, u) && SessionLocks(u, p, jobs) && Same(t, u, p, Session(Open, jobs))
    decreases |jobs - held|
  {
    hide F.Reach, SessionLocks;
    if jobs <= held {
      assert jobs == held;
      assert t.procs[p := t.procs[p]] == t.procs;
      u := t;
    } else {
      var j :| j in jobs && j !in held;
      Fewer(jobs - (held + {j}), jobs - held);
      var a := AcquiresOne(m, s, t, p, held, j);
      u := Acquires(m, s, a, p, jobs, held + {j});
    }
  }

  lemma AcquiresOne(m: Mode, s: State, t: State, p: nat, held: set<Job>, j: Job) returns (u: State)
    requires F.Reach(m, s, t) && Working(t, p, Session(Open, held)) && SessionLocks(t, p, held) && j !in held
    ensures F.Reach(m, s, u) && SessionLocks(u, p, held + {j}) && Same(t, u, p, Session(Open, held + {j}))
  {
    hide F.Reach;
    u := Put(t, p, Session(Open, held + {j})).(locks := t.locks[JobLock(j) := p]);
    Serve(m, s, t, u, p);
  }

  /** Some of them are deleted. */
  lemma {:induction false} DeletesAll(m: Mode, s: State, t: State, p: nat, jobs: set<Job>, gone: set<Job>)
      returns (u: State)
    requires F.Reach(m, s, t) && Working(t, p, Session(Open, jobs)) && SessionLocks(t, p, jobs)
    requires gone <= jobs && (m.ls ==> gone == {})
    ensures F.Reach(m, s, u) && u == t.(docs := t.docs - gone)
    decreases |gone|
  {
    hide F.Reach;
    if gone == {} {
      assert t.docs - gone == t.docs;
      u := t;
    } else {
      var j :| j in gone;
      var a := t.(docs := t.docs - {j});
      assert t.procs[p := t.procs[p]] == t.procs;
      assert SessionDeletes(t, a, p, j);
      Serve(m, s, t, a, p);
      assert t.docs - {j} - (gone - {j}) == t.docs - gone;
      u := DeletesAll(m, s, a, p, jobs, gone - {j});
    }
  }

  /** The handles are released. */
  lemma {:induction false} ReleasesAll(m: Mode, s: State, t: State, p: nat, jobs: set<Job>) returns (u: State)
    requires F.Reach(m, s, t) && Working(t, p, Session(Closing(jobs), jobs)) && SessionLocks(t, p, jobs)
    ensures F.Reach(m, s, u) && u == Put(t, p, Done).(locks := map[])
    decreases |jobs|
  {
    hide F.Reach, SessionLocks;
    if jobs == {} {
      u := ReleasesFence(m, s, t, p);
    } else {
      var j :| j in jobs;
      var a := ReleasesOne(m, s, t, p, jobs, j);
      u := ReleasesAll(m, s, a, p, jobs - {j});
    }
  }

  lemma ReleasesOne(m: Mode, s: State, t: State, p: nat, jobs: set<Job>, j: Job) returns (u: State)
    requires F.Reach(m, s, t) && Working(t, p, Session(Closing(jobs), jobs)) && SessionLocks(t, p, jobs) && j in jobs
    ensures F.Reach(m, s, u) && SessionLocks(u, p, jobs - {j})
    ensures Same(t, u, p, Session(Closing(jobs - {j}), jobs - {j}))
  {
    hide F.Reach;
    u := Put(t, p, Session(Closing(jobs - {j}), jobs - {j})).(locks := t.locks - {JobLock(j)});
    Serve(m, s, t, u, p);
  }

  lemma ReleasesFence(m: Mode, s: State, t: State, p: nat) returns (u: State)
    requires F.Reach(m, s, t) && Working(t, p, Session(Closing({}), {})) && SessionLocks(t, p, {})
    ensures F.Reach(m, s, u) && u == Put(t, p, Done).(locks := map[])
  {
    hide F.Reach;
    assert t.locks - {Fence} == map[];
    u := Put(t, p, Done).(locks := map[]);
    Serve(m, s, t, u, p);
  }

  /** Alone, a package session gets the fence and handles of any Jobs, can delete those it is told to (in the
      generic product), and leaves no lock behind. */
  lemma SessionEnds(m: Mode, s: State, p: nat, jobs: set<Job>, gone: set<Job>) returns (t: State, u: State)
    requires s.locks == map[] && Working(s, p, Session(Enter, {})) && gone <= jobs && (m.ls ==> gone == {})
    ensures F.Reach(m, s, t) && t.Held(Fence, p) && forall j <- jobs :: t.Held(JobLock(j), p)
    ensures F.Reach(m, s, u) && u == Put(s, p, Done).(docs := s.docs - gone)
  {
    Begin(m, s);
    hide F.Reach;
    var a := Put(s, p, Session(Open, {})).(locks := map[Fence := p]);
    Serve(m, s, s, a, p);
    t := Acquires(m, s, a, p, jobs, {});
    var b := DeletesAll(m, s, t, p, jobs, gone);
    var d := Put(b, p, Session(Closing(jobs), jobs));
    Serve(m, s, b, d, p);
    u := ReleasesAll(m, s, d, p, jobs);
  }
}
