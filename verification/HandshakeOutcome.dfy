/** What Job mutations and Interface mutations achieve: what has been stored or removed whenever one
    ends without a failure, and that one which runs alone does end so. */
module HandshakeOutcome {
  import opened Options
  import opened JobIndex
  import opened Handshake
  import opened HandshakeProof
  import opened HandshakeFault

  lemma OkAt(m: Mode, run: seq<State>, i: nat, p: nat)
    requires IsRun(m, run) && i < |run| && run[i].Alive(p)
    ensures ProcOk(m, run[i], p)
  {
    RunInv(m, run, i);
    assert run[i].procs[p].alive;
  }

  // ---------------------------------------------------------------- Job mutations

  /** A Job mutation that has succeeded and still has the Job's lock: a deleted Job is neither stored
      nor indexed; a created or updated one is stored with the configuration that was given, which has a
      call, and in LS its index entry is that of the stored document. */
  lemma JobIsChanged(m: Mode, run: seq<State>, i: nat, p: nat)
    requires IsRun(m, run) && i < |run| && run[i].Alive(p)
    requires run[i].procs[p].pc.Mutate? && run[i].procs[p].pc.phase == GiveBack(true)
    requires run[i].Held(JobLock(run[i].procs[p].pc.task.job), p)
    ensures var s, task := run[i], run[i].procs[p].pc.task;
      if task.DeleteJob? then task.job !in s.docs && (m.ls ==> task.job !in s.index)
      else
        && task.job in s.docs && s.docs[task.job].config == task.next && task.next.calls != []
        && (m.ls ==> task.job in s.index && s.index[task.job] == FromDocument(s.docs[task.job]))
  {
    OkAt(m, run, i, p);
  }

  /** The step with which it succeeds leaves it the lock. */
  lemma EndsHolding(m: Mode, run: seq<State>, i: nat, p: nat)
    requires IsRun(m, run) && i + 1 < |run| && Acts(m, run[i], run[i + 1], p)
    requires run[i].procs[p].pc.Mutate? && !run[i].procs[p].pc.phase.GiveBack?
    requires Succeeds(run[i + 1], p)
    ensures run[i + 1].procs[p].pc.task == run[i].procs[p].pc.task
    ensures run[i + 1].Held(JobLock(run[i].procs[p].pc.task.job), p)
  {
    hide IsRun;
    OkAt(m, run, i, p);
    LastStep(m, run[i], run[i + 1], p);
  }

  ghost predicate Succeeds(s: State, p: nat) {
    s.Alive(p) && s.procs[p].pc.Mutate? && s.procs[p].pc.phase == GiveBack(true)
  }

  lemma LastStep(m: Mode, s: State, s': State, p: nat)
    requires JobReady(m, s, p) && !s.procs[p].pc.phase.GiveBack? && JobStep(m, s, s', p)
    ensures Succeeds(s', p) ==>
              s'.procs[p].pc.task == s.procs[p].pc.task && s'.Held(JobLock(s.procs[p].pc.task.job), p)
  {
    hide ValidateStep, GateStep, HoldStep, ClearStep, IndexStep, SaveStep;
    var phase := s.procs[p].pc.phase;
    if phase.Validate? {
      NotValidated(m, s, s', p);
    } else if phase.SaveDoc? {
      if SaveStep(m, s, s', p) { SaveHolds(m, s, s', p); }
    } else if IndexStep(m, s, s', p) {
      IndexHolds(m, s, s', p);
    } else {
      NotYet(m, s, s', p);
    }
  }

  lemma NotValidated(m: Mode, s: State, s': State, p: nat)
    requires s.Alive(p) && s.procs[p].pc.Mutate? && s.procs[p].pc.phase.Validate? && ValidateStep(m, s, s', p)
    ensures !Succeeds(s', p)
  {
  }

  lemma NotYet(m: Mode, s: State, s': State, p: nat)
    requires s.Alive(p) && s.procs[p].pc.Mutate?
    requires GateStep(m, s, s', p) || HoldStep(s, s', p) || ClearStep(s, s', p)
    ensures !Succeeds(s', p)
  {
    hide GateStep, HoldStep, ClearStep;
    if GateStep(m, s, s', p) {
      NotThroughGate(m, s, s', p);
    } else if HoldStep(s, s', p) {
      NotThroughHold(s, s', p);
    } else {
      NotThroughClear(s, s', p);
    }
  }

  lemma NotThroughGate(m: Mode, s: State, s': State, p: nat)
    requires s.Alive(p) && s.procs[p].pc.Mutate? && GateStep(m, s, s', p)
    ensures !Succeeds(s', p)
  {
    hide InterfacesOf;
  }

  lemma NotThroughHold(s: State, s': State, p: nat)
    requires s.Alive(p) && s.procs[p].pc.Mutate? && HoldStep(s, s', p)
    ensures !Succeeds(s', p)
  {
  }

  lemma NotThroughClear(s: State, s': State, p: nat)
    requires s.Alive(p) && s.procs[p].pc.Mutate? && ClearStep(s, s', p)
    ensures !Succeeds(s', p)
  {
  }

  lemma SaveHolds(m: Mode, s: State, s': State, p: nat)
    requires JobReady(m, s, p) && s.procs[p].pc.phase.SaveDoc? && SaveStep(m, s, s', p)
    ensures s'.procs[p].pc.task == s.procs[p].pc.task && s'.Held(JobLock(s.procs[p].pc.task.job), p)
  {
  }

  lemma IndexHolds(m: Mode, s: State, s': State, p: nat)
    requires JobReady(m, s, p) && IndexStep(m, s, s', p)
    ensures s'.procs[p].pc.task == s.procs[p].pc.task && s'.Held(JobLock(s.procs[p].pc.task.job), p)
  {
    hide FromDocument;
  }

  // ---------------------------------------------------------------- Interface mutations

  predicate Changes(s: State, p: nat) {
    p < |s.procs| && s.procs[p].pc.Guarding? && s.procs[p].pc.step == Leave(true)
  }

  /** The step with which an Interface mutation succeeds: the store has the new Interface, or no longer
      has the id, and is otherwise as it was; and unless a call sees nothing of the change, no Job
      whose index entry agrees refers to the Interface. */
  lemma InterfaceIsChanged(m: Mode, run: seq<State>, i: nat, p: nat)
    requires IsRun(m, run) && i + 1 < |run| && Acts(m, run[i], run[i + 1], p)
    requires run[i].procs[p].pc.Guarding? && !run[i].procs[p].pc.step.Leave? && run[i + 1].Alive(p)
    requires Changes(run[i + 1], p)
    ensures var s, s', id, change := run[i], run[i + 1], run[i].procs[p].pc.id, run[i].procs[p].pc.change;
      && id in s.store && !s.store[id].builtIn
      && (if change.Remove? then id !in s'.store else id in s'.store && s'.store[id] == change.next)
      && (forall k :: k != id ==> (k in s'.store <==> k in s.store))
      && (forall k :: k != id && k in s.store ==> s'.store[k] == s.store[k])
      && ((exists j :: Agreed(m, s, j) && id in InterfacesOf(s.docs[j].config.calls)) ==>
            change.Edit? && change.next.shape == s.store[id].shape && change.next.methods == s.store[id].methods)
  {
    hide IsRun;
    OkAt(m, run, i, p);
    ActionEnds(m, run[i], run[i + 1], p);
  }

  lemma ActionEnds(m: Mode, s: State, s': State, p: nat)
    requires GuardReady(m, s, p) && s.procs[p].pc.Guarding? && !s.procs[p].pc.step.Leave?
    requires s.Alive(p) && GuardStep(m, s, s', p) && s'.Alive(p) && Changes(s', p)
    ensures WritesStore(m, s, s', p)
  {
    hide GuardReady, ReaderStep, SearchStep, ActionStep, WritesStore, Changes;
    if ActionStep(s, s', p) {
      StoreEnds(m, s, s', p);
    } else {
      NotChanged(m, s, s', p);
    }
  }

  lemma StoreEnds(m: Mode, s: State, s': State, p: nat)
    requires GuardReady(m, s, p) && s.procs[p].pc.Guarding? && !s.procs[p].pc.step.Leave?
    requires ActionStep(s, s', p) && s'.Alive(p) && Changes(s', p)
    ensures WritesStore(m, s, s', p)
  {
    hide GuardingOk, Allowed;
  }

  lemma NotChanged(m: Mode, s: State, s': State, p: nat)
    requires p < |s.procs| && s.procs[p].pc.Guarding? && !s.procs[p].pc.step.Leave?
    requires ReaderStep(s, s', p) || SearchStep(m, s, s', p)
    ensures !Changes(s', p)
  {
    hide ReaderStep, SearchStep, Changes;
    if ReaderStep(s, s', p) { ReadersUnchanged(s, s', p); } else { SearchUnchanged(m, s, s', p); }
  }

  lemma ReadersUnchanged(s: State, s': State, p: nat)
    requires p < |s.procs| && s.procs[p].pc.Guarding? && ReaderStep(s, s', p)
    ensures !Changes(s', p)
  {
    hide ReadersOf;
  }

  lemma SearchUnchanged(m: Mode, s: State, s': State, p: nat)
    requires p < |s.procs| && s.procs[p].pc.Guarding? && SearchStep(m, s, s', p)
    ensures !Changes(s', p)
  {
    hide Reports;
  }

  /** As long as it has its lock on the Interface, the new Interface stays. */
  lemma InterfaceStays(m: Mode, run: seq<State>, i: nat, p: nat)
    requires IsRun(m, run) && i < |run| && run[i].Alive(p)
    requires run[i].procs[p].pc.Guarding? && run[i].procs[p].pc.step == Leave(true)
    requires !run[i].procs[p].pc.change.Remove? && run[i].Held(Mutation(run[i].procs[p].pc.id), p)
    ensures run[i].procs[p].pc.id in run[i].store
    ensures run[i].store[run[i].procs[p].pc.id] == run[i].procs[p].pc.change.next
  {
    OkAt(m, run, i, p);
  }

  /** For a Job whose index entry agrees, and whose document the scan can read, the reference search
      reports exactly the Interfaces that its calls name; so it refuses no other change. */
  lemma ReportsExactly(m: Mode, s: State, j: Job, id: Id)
    requires Agreed(m, s, j) && (m.ls || ScanReads(s.docs[j].config.calls))
    ensures Reports(m, s, j, id)
            <==> exists k :: 0 <= k < |s.docs[j].config.calls| && s.docs[j].config.calls[k].interfaceId == id
  {
    var refs := References(s.docs[j].config.calls);
  }

  // ---------------------------------------------------------------- whose files

  ghost predicate SameFiles(s: State, s': State) { s'.docs == s.docs && s'.index == s.index }

  /** A step changes no file of a Job, or files of one Job whose lock its process has. */
  ghost predicate WritesOwn(s: State, s': State, p: nat) {
    SameFiles(s, s')
    || exists j :: s.Held(JobLock(j), p) && OnlyKey(s.docs, s'.docs, j) && OnlyKey(s.index, s'.index, j)
  }

  lemma QuietSame(s: State, s': State, p: nat)
    requires QuietStep(s, s', p)
    ensures WritesOwn(s, s', p)
  {
  }

  lemma WellOwn(m: Mode, s: State, s': State, p: nat)
    requires s.Alive(p) && s.procs[p].pc.Mutate? && StoresWell(m, s, s', p)
    ensures WritesOwn(s, s', p)
  {
  }

  lemma JobOwn(m: Mode, s: State, s': State, p: nat)
    requires s.Alive(p) && s.procs[p].pc.Mutate? && JobReady(m, s, p) && JobStep(m, s, s', p)
    ensures WritesOwn(s, s', p)
  {
    hide JobReady, ValidateStep, BackStep, SaveStep, GateStep, HoldStep, ClearStep, IndexStep, QuietStep, StoresWell;
    hide WritesOwn;
    var phase := s.procs[p].pc.phase;
    if phase.Validate? {
      ValidateQuiet(m, s, s', p);
      QuietSame(s, s', p);
    } else if phase.GiveBack? {
      BackSelf(m, s, s', p);
      QuietSame(s, s', p);
    } else if phase.SaveDoc? {
      if SaveStep(m, s, s', p) {
        SaveWell(m, s, s', p);
        WellOwn(m, s, s', p);
      } else {
        MovesOwn(s, s', p, s.procs[p].pc.(phase := GiveBack(false)));
      }
    } else {
      RestOwn(m, s, s', p);
    }
  }

  lemma MovesOwn(s: State, s': State, p: nat, pc: PC)
    requires s.Alive(p) && Moves(s, s', p, pc)
    ensures WritesOwn(s, s', p)
  {
  }

  lemma RestOwn(m: Mode, s: State, s': State, p: nat)
    requires s.Alive(p) && s.procs[p].pc.Mutate? && JobReady(m, s, p)
    requires GateStep(m, s, s', p) || HoldStep(s, s', p) || ClearStep(s, s', p) || IndexStep(m, s, s', p)
    ensures WritesOwn(s, s', p)
  {
    hide JobReady, GateStep, HoldStep, ClearStep, IndexStep, QuietStep, StoresWell, WritesOwn;
    if GateStep(m, s, s', p) {
      GateQuiet(m, s, s', p);
      QuietSame(s, s', p);
    } else if HoldStep(s, s', p) {
      HoldQuiet(m, s, s', p);
      QuietSame(s, s', p);
    } else {
      if ClearStep(s, s', p) {
        ClearWell(m, s, s', p);
      } else if s.procs[p].pc.phase.SaveIndex? {
        IndexWell(m, s, s', p);
      } else {
        UndoWell(m, s, s', p);
      }
      WellOwn(m, s, s', p);
    }
  }

  lemma GuardOwn(m: Mode, s: State, s': State, p: nat)
    requires GuardReady(m, s, p) && s.procs[p].pc.Guarding? && GuardStep(m, s, s', p)
    ensures WritesOwn(s, s', p)
  {
    if ReaderStep(s, s', p) {
      ReaderQuiet(m, s, s', p);
    } else if SearchStep(m, s, s', p) {
      SearchQuiet(m, s, s', p);
    } else {
      hide Allowed;
    }
  }

  lemma SessionOwn(m: Mode, s: State, s': State, p: nat)
    requires s.Alive(p) && s.procs[p].pc.Session? && SessionStep(m, s, s', p)
    ensures WritesOwn(s, s', p)
  {
    if s.procs[p].pc.state.Closing? {
      CloseQuiet(s, s', p, s.procs[p].pc.state.todo);
    } else if s'.docs == s.docs {
      OpenQuiet(m, s, s', p);
    } else {
      var j :| j in s.procs[p].pc.handles && SessionDeletes(s, s', p, j);
    }
  }

  /** A Job's document and index entry are stored, changed and removed under the Job's lock alone. */
  lemma FilesUnderLock(m: Mode, run: seq<State>, i: nat, p: nat, j: Job)
    requires IsRun(m, run) && i + 1 < |run| && Acts(m, run[i], run[i + 1], p)
    requires (j in run[i].docs) != (j in run[i + 1].docs) || (j in run[i].index) != (j in run[i + 1].index)
              || (j in run[i].docs && run[i + 1].docs[j] != run[i].docs[j])
              || (j in run[i].index && run[i + 1].index[j] != run[i].index[j])
    ensures run[i].Held(JobLock(j), p)
  {
    hide IsRun;
    OkAt(m, run, i, p);
    match run[i].procs[p].pc {
      case Mutate(_, _, _, _, _, _) => JobOwn(m, run[i], run[i + 1], p);
      case Guarding(_, _, _, _, _, _) => GuardOwn(m, run[i], run[i + 1], p);
      case Session(_, _) => SessionOwn(m, run[i], run[i + 1], p);
    }
  }
}
