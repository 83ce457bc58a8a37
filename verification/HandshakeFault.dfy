/** The run in which a stored LS Job loses an Interface it refers to: an update whose document
    is saved and whose index is not.

    Process 0 replaces the call of Job "j" by one to another Interface, saves the document, and fails
    to write the index. Process 1 then deletes that Interface, because the index knows of no
    reference to it. */
module HandshakeFault {
  import opened Options
  import opened JobIndex
  import opened Handshake
  import opened HandshakeProof

  ghost predicate Path(m: Mode, run: seq<State>, s: State, t: State) {
    |run| > 0 && run[0] == s && run[|run| - 1] == t
    && forall i {:trigger run[i]} :: 0 <= i < |run| - 1 ==> Next(m, run[i], run[i + 1])
  }

  ghost predicate Reach(m: Mode, s: State, t: State) { exists run :: Path(m, run, s, t) }

  lemma Do(m: Mode, s: State, t: State, u: State, p: nat)
    requires Reach(m, s, t) && Acts(m, t, u, p)
    ensures Reach(m, s, u)
  {
    hide Acts;
    assert Next(m, t, u);
    var run :| Path(m, run, s, t);
    var longer := run + [u];
    forall i | 0 <= i < |longer| - 1 ensures Next(m, longer[i], longer[i + 1]) {
      if i < |run| - 1 { assert Next(m, run[i], run[i + 1]); }
    }
    assert Path(m, longer, s, u);
  }

  const JOB := Name("j")
  const OTHER := Name("other")
  const IFACE := Name("k")
  const METHOD := Name("x")
  const SETTINGS := Settings("", 1000, false, ["server", "table", "value", ""], ["perMethod", "stop"], "info")
  const BEFORE := Config([MethodCall(Name("b"), OTHER, METHOD, Direct(["tag"]))], SETTINGS)
  const CALL := MethodCall(Name("a"), IFACE, METHOD, Direct(["tag"]))
  const AFTER := Config([CALL], SETTINGS)
  const UPDATE := UpdateJob(JOB, AFTER)

  /** Process 0 as it goes through the update; the Interfaces it holds are those it has published. */
  function Updating(phase: JobPhase, todo: set<Id>, held: set<Id>, current: Option<Document>): PC {
    Mutate(UPDATE, phase, todo, held, held, current)
  }

  /** Process 0 with both Interfaces held. */
  function Holding(phase: JobPhase, current: Document): PC { Updating(phase, {}, {OTHER, IFACE}, Some(current)) }

  function Deleting(step: GuardPhase, left: set<Job>): PC { Guarding(IFACE, Remove, step, left, {}, {}) }

  const STORED: map<Id, Interface> :=
    map[OTHER := Interface(false, [], {METHOD}), IFACE := Interface(false, [], {METHOD})]

  const REMAINING: map<Id, Interface> := map[OTHER := Interface(false, [], {METHOD})]

  function At(locks: map<Lock, nat>, doc: Document, store: map<Id, Interface>, first: PC, second: PC): State {
    State(locks, map[JOB := doc], map[JOB := FromDocument(FIRST)], store, [Proc(true, first), Proc(true, second)])
  }

  function Start(): State { At(map[], FIRST, STORED, Updating(FenceFirst, {}, {}, None), WAITING) }

  lemma StartIs(m: Mode)
    ensures Init(m, Start()) && Reach(m, Start(), Start())
  {
    assert Path(m, [Start()], Start(), Start());
  }

  /** Steps of process 0, by the kind of phase it is in. */
  lemma Gate(m: Mode, t: State, u: State)
    requires t.Alive(0) && t.procs[0].pc.Mutate? && Reach(m, Start(), t)
    requires t.procs[0].pc.phase in {FenceFirst, TakeJob, FenceSecond, ReadDoc} && GateStep(m, t, u, 0)
    ensures Reach(m, Start(), u)
  {
    hide Reach, GateStep;
    Do(m, Start(), t, u, 0);
  }

  lemma Hold(m: Mode, t: State, u: State)
    requires t.Alive(0) && t.procs[0].pc.Mutate? && Reach(m, Start(), t)
    requires var phase := t.procs[0].pc.phase;
      (phase.Pick? || phase.CheckFirst? || phase.TakeReader? || phase.CheckSecond?) && HoldStep(t, u, 0)
    ensures Reach(m, Start(), u)
  {
    hide Reach, HoldStep;
    Do(m, Start(), t, u, 0);
  }

  lemma Other(m: Mode, t: State, u: State, p: nat)
    requires t.Alive(p) && Reach(m, Start(), t)
    requires match t.procs[p].pc
             case Mutate(_, Validate(_), _, _, _, _) => ValidateStep(m, t, u, p)
             case Mutate(_, GiveBack(_), _, _, _, _) => BackStep(t, u, p)
             case Mutate(_, SaveDoc, _, _, _, _) => SaveStep(m, t, u, p)
             case Mutate(_, SaveIndex, _, _, _, _) => IndexStep(m, t, u, p)
             case Guarding(_, _, _, _, _, _) => ReaderStep(t, u, p) || SearchStep(m, t, u, p) || ActionStep(t, u, p)
             case _ => false
    ensures Reach(m, Start(), u)
  {
    hide Reach, ValidateStep, BackStep, SaveStep, IndexStep, ReaderStep, SearchStep, ActionStep;
    Do(m, Start(), t, u, p);
  }

  const JOB_LOCK: map<Lock, nat> := map[JobLock(JOB) := 0]
  const FENCE: map<Lock, nat> := map[Mutation(IFACE) := 1]
  const WAITING := Deleting(TakeFence, {})

  const FIRST := Document(JOB, 1, BEFORE)
  const SECOND := Document(JOB, 2, AFTER)

  lemma Names()
    ensures IFACE != OTHER && JobLock(JOB) != Reader(IFACE, JOB)
  {
    assert IFACE.text[0] != OTHER.text[0];
  }

  /** The Job lock is taken. */
  lemma Locks(m: Mode) returns (u: State)
    ensures u == At(JOB_LOCK, FIRST, STORED, Updating(FenceSecond, {}, {}, None), WAITING) && Reach(m, Start(), u)
  {
    StartIs(m);
    hide Reach, FromDocument;
    var a := At(map[], FIRST, STORED, Updating(TakeJob, {}, {}, None), WAITING);
    Gate(m, Start(), a);
    u := At(JOB_LOCK, FIRST, STORED, Updating(FenceSecond, {}, {}, None), WAITING);
    Gate(m, a, u);
  }

  /** The Job is read. */
  lemma Reads(m: Mode) returns (u: State)
    ensures u == At(JOB_LOCK, FIRST, STORED, Updating(Pick, {OTHER, IFACE}, {}, Some(FIRST)), WAITING)
    ensures Reach(m, Start(), u)
  {
    var t := Locks(m);
    hide Reach, FromDocument;
    var a := At(JOB_LOCK, FIRST, STORED, Updating(ReadDoc, {}, {}, None), WAITING);
    Gate(m, t, a);
    u := At(JOB_LOCK, FIRST, STORED, Updating(Pick, {OTHER, IFACE}, {}, Some(FIRST)), WAITING);
    assert InterfacesOf(BEFORE.calls) == {OTHER} && InterfacesOf(AFTER.calls) == {IFACE};
    assert {OTHER} + {IFACE} == {OTHER, IFACE};
    Gate(m, a, u);
  }

  /** One Interface is held. */
  lemma HoldsOne(m: Mode, t: State, id: Id, locks: map<Lock, nat>, todo: set<Id>, held: set<Id>) returns (u: State)
    requires t == At(locks, FIRST, STORED, Updating(Pick, todo, held, Some(FIRST)), WAITING) && Reach(m, Start(), t)
    requires id in todo && id !in held && Mutation(id) !in locks && Reader(id, JOB) !in locks
    ensures u == At(locks[Reader(id, JOB) := 0], FIRST, STORED,
                    Updating(Pick, todo - {id}, held + {id}, Some(FIRST)), WAITING)
    ensures Reach(m, Start(), u)
  {
    hide Reach, FromDocument;
    var a := At(locks, FIRST, STORED, Updating(CheckFirst(id), todo - {id}, held, Some(FIRST)), WAITING);
    Hold(m, t, a);
    var b := At(locks, FIRST, STORED, Updating(TakeReader(id), todo - {id}, held, Some(FIRST)), WAITING);
    Hold(m, a, b);
    u := Publishes(m, b, id, locks, todo - {id}, held);
  }

  lemma Publishes(m: Mode, t: State, id: Id, locks: map<Lock, nat>, todo: set<Id>, held: set<Id>) returns (u: State)
    requires t == At(locks, FIRST, STORED, Updating(TakeReader(id), todo, held, Some(FIRST)), WAITING)
    requires Reach(m, Start(), t)
    requires id !in held && Mutation(id) !in locks && Reader(id, JOB) !in locks
    ensures u == At(locks[Reader(id, JOB) := 0], FIRST, STORED, Updating(Pick, todo, held + {id}, Some(FIRST)), WAITING)
    ensures Reach(m, Start(), u)
  {
    hide Reach, FromDocument;
    var more := locks[Reader(id, JOB) := 0];
    var a := At(more, FIRST, STORED, Mutate(UPDATE, CheckSecond(id), todo, held, held + {id}, Some(FIRST)), WAITING);
    Hold(m, t, a);
    u := At(more, FIRST, STORED, Updating(Pick, todo, held + {id}, Some(FIRST)), WAITING);
    Hold(m, a, u);
  }

  const BOTH_LOCKS: map<Lock, nat> := JOB_LOCK[Reader(IFACE, JOB) := 0][Reader(OTHER, JOB) := 0]

  /** Both Interfaces are held. */
  lemma Holds(m: Mode) returns (u: State)
    ensures u == At(BOTH_LOCKS, FIRST, STORED, Holding(Validate(0), FIRST), WAITING) && Reach(m, Start(), u)
  {
    Names();
    var t := Reads(m);
    hide Reach, FromDocument;
    var a := HoldsOne(m, t, IFACE, JOB_LOCK, {OTHER, IFACE}, {});
    assert {OTHER, IFACE} - {IFACE} == {OTHER} && {} + {IFACE} == {IFACE};
    var b := HoldsOne(m, a, OTHER, JOB_LOCK[Reader(IFACE, JOB) := 0], {OTHER}, {IFACE});
    assert {OTHER} - {OTHER} == {} && {IFACE} + {OTHER} == {OTHER, IFACE};
    u := At(BOTH_LOCKS, FIRST, STORED, Holding(Validate(0), FIRST), WAITING);
    Hold(m, b, u);
  }

  /** The new call is checked. */
  lemma Checks(m: Mode) returns (u: State)
    requires m.ls
    ensures u == At(BOTH_LOCKS, FIRST, STORED, Holding(SaveDoc, FIRST), WAITING) && Reach(m, Start(), u)
  {
    Names();
    var t := Holds(m);
    hide Reach, FromDocument;
    var a := At(BOTH_LOCKS, FIRST, STORED, Holding(Validate(1), FIRST), WAITING);
    Other(m, t, a, 0);
    u := At(BOTH_LOCKS, FIRST, STORED, Holding(SaveDoc, FIRST), WAITING);
    Other(m, a, u, 0);
  }

  /** The document is saved and the index is not. */
  lemma Saves(m: Mode) returns (u: State)
    requires m.ls && m.indexFaults
    ensures u == At(BOTH_LOCKS, SECOND, STORED, Holding(GiveBack(false), SECOND), WAITING) && Reach(m, Start(), u)
  {
    Names();
    var t := Checks(m);
    hide Reach, FromDocument;
    assert AFTER.calls[0].interfaceId != BEFORE.calls[0].interfaceId;
    var a := At(BOTH_LOCKS, SECOND, STORED, Holding(SaveIndex, SECOND), WAITING);
    Other(m, t, a, 0);
    u := At(BOTH_LOCKS, SECOND, STORED, Holding(GiveBack(false), SECOND), WAITING);
    Other(m, a, u, 0);
  }

  function Returning(readers: set<Id>): PC {
    Mutate(UPDATE, GiveBack(false), {}, {OTHER, IFACE}, readers, Some(SECOND))
  }

  /** The locks are given back. */
  lemma Returns(m: Mode) returns (u: State)
    requires m.ls && m.indexFaults
    ensures u == At(map[], SECOND, STORED, Done, WAITING) && Reach(m, Start(), u)
  {
    Names();
    var t := Saves(m);
    hide Reach, FromDocument;
    var readers := JOB_LOCK[Reader(IFACE, JOB) := 0];
    assert BOTH_LOCKS - {Reader(OTHER, JOB)} == readers && readers - {Reader(IFACE, JOB)} == JOB_LOCK;
    assert {OTHER, IFACE} - {OTHER} == {IFACE} && {IFACE} - {IFACE} == {};
    var a := At(readers, SECOND, STORED, Returning({IFACE}), WAITING);
    Other(m, t, a, 0);
    var b := At(JOB_LOCK, SECOND, STORED, Returning({}), WAITING);
    Other(m, a, b, 0);
    u := Ends(m, b);
  }

  lemma Ends(m: Mode, t: State) returns (u: State)
    requires t == At(JOB_LOCK, SECOND, STORED, Returning({}), WAITING)
    requires Reach(m, Start(), t)
    ensures u == At(map[], SECOND, STORED, Done, WAITING) && Reach(m, Start(), u)
  {
    hide Reach, FromDocument;
    assert JOB_LOCK - {JobLock(JOB)} == map[];
    u := At(map[], SECOND, STORED, Done, WAITING);
    Other(m, t, u, 0);
  }

  lemma NoReaders(locks: map<Lock, nat>)
    requires forall n <- locks :: !n.Reader?
    ensures ReadersOf(locks, IFACE) == {}
  {
  }

  /** The reference searches find nothing. */
  lemma Searches(m: Mode) returns (u: State)
    requires m.ls && m.indexFaults
    ensures u == At(FENCE, SECOND, STORED, Done, Deleting(ListJobs(false), {})) && Reach(m, Start(), u)
  {
    var t := Returns(m);
    hide Reach, FromDocument;
    var a := At(FENCE, SECOND, STORED, Done, Deleting(ListReaders, {}));
    Other(m, t, a, 1);
    var b := At(FENCE, SECOND, STORED, Done, Deleting(ProbeReaders, {}));
    NoReaders(a.locks);
    Other(m, a, b, 1);
    u := At(FENCE, SECOND, STORED, Done, Deleting(ListJobs(false), {}));
    Other(m, b, u, 1);
  }

  /** One reference search. */
  lemma Scans(m: Mode, t: State, again: bool) returns (u: State)
    requires m.ls && t == At(FENCE, SECOND, STORED, Done, Deleting(ListJobs(again), {})) && Reach(m, Start(), t)
    ensures u == At(FENCE, SECOND, STORED, Done, Deleting(if again then ReadStore else TakeJobs, {}))
    ensures Reach(m, Start(), u)
  {
    Unreported(m, t);
    hide Reach, FromDocument, Reports;
    assert t.index.Keys == {JOB} && {JOB} - {JOB} == {};
    var a := At(FENCE, SECOND, STORED, Done, Deleting(ScanJobs(again), {JOB}));
    Other(m, t, a, 1);
    var b := At(FENCE, SECOND, STORED, Done, Deleting(ScanJobs(again), {}));
    Unreported(m, a);
    Other(m, a, b, 1);
    u := At(FENCE, SECOND, STORED, Done, Deleting(if again then ReadStore else TakeJobs, {}));
    Other(m, b, u, 1);
  }

  lemma Unreported(m: Mode, t: State)
    requires m.ls && JOB in t.index && t.index[JOB] == FromDocument(FIRST)
    ensures !Reports(m, t, JOB, IFACE)
  {
    Names();
  }

  /** The store at the end of the run. */
  function End(): State { At(FENCE, SECOND, REMAINING, Done, Deleting(Leave(true), {})) }

  /** The Interface of the new call is deleted. */
  lemma Deletes(m: Mode)
    requires m.ls && m.indexFaults
    ensures Init(m, Start()) && Reach(m, Start(), End())
  {
    StartIs(m);
    var s := Searches(m);
    hide Reach, FromDocument, Init;
    var t := Scans(m, s, false);
    var a := At(FENCE, SECOND, STORED, Done, Deleting(ListJobs(true), {}));
    Other(m, t, a, 1);
    var b := Scans(m, a, true);
    var u := Removes(m, b);
  }

  /** At the start every document has a call, at the end the call of the registered Job does not
      resolve, and its index entry is still the one of the call before. */
  lemma CallIsLost(m: Mode)
    ensures forall j <- Start().docs :: Start().docs[j].config.calls != []
    ensures JOB in End().docs && End().docs[JOB].config.calls == [CALL] && !End().Resolves(CALL)
    ensures JOB in End().index && End().index[JOB] == FromDocument(FIRST)
    ensures !Consistent(m, End())
  {
    Names();
    hide FromDocument;
    assert Registered(m, End(), JOB) && End().docs[JOB].config.calls[0] == CALL;
  }

  lemma Removes(m: Mode, t: State) returns (u: State)
    requires t == At(FENCE, SECOND, STORED, Done, Deleting(ReadStore, {})) && Reach(m, Start(), t)
    ensures u == At(FENCE, SECOND, REMAINING, Done, Deleting(Leave(true), {})) && Reach(m, Start(), u)
  {
    Names();
    hide Reach, FromDocument;
    var a := At(FENCE, SECOND, STORED, Done, Deleting(WriteStore(STORED[IFACE]), {}));
    Other(m, t, a, 1);
    assert STORED - {IFACE} == REMAINING;
    u := At(FENCE, SECOND, REMAINING, Done, Deleting(Leave(true), {}));
    Other(m, a, u, 1);
  }

  /** In every state of every run each call of each registered Job finds its Interface and Method. */
  ghost predicate Resolving(m: Mode) {
    forall run: seq<State>, i: nat | IsRun(m, run) && i < |run| :: Consistent(m, run[i])
  }

  /** References stay intact exactly where the LS product can count on the index being written
      after the document. */
  lemma ResolvesExactlyWhen(m: Mode)
    ensures Resolving(m) <==> !(m.ls && m.indexFaults)
  {
    if Safe(m) {
      forall run: seq<State>, i: nat | IsRun(m, run) && i < |run| ensures Consistent(m, run[i]) {
        SafeReferencesResolve(m, run, i);
      }
    } else {
      FaultyRun(m);
    }
  }

  lemma FaultyRun(m: Mode)
    requires m.ls && m.indexFaults
    ensures !Resolving(m)
  {
    Deletes(m);
    CallIsLost(m);
    hide Init, Next, Consistent, FromDocument;
    var run :| Path(m, run, Start(), End());
    assert IsRun(m, run) && run[|run| - 1] == End();
  }
}
