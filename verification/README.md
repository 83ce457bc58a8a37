# A verified model of the D-Bus collection control plane

The repository manages Jobs that call D-Bus methods on a schedule and append the results to a
database. This project models its concurrent protocols and its algorithms in Dafny and proves what
they are for. `dafny verify dfyconfig.toml` verifies everything.

| module | what it is about |
|---|---|
| `OperationLock`, `OperationLockProof`, `OperationLockRace`, `OperationLockProbe`, `OperationLockUse` | the lease-based file lock between independent processes, as a transition system with one step per file operation: exclusion, the exact settings in which it holds, what a probe from outside means, and that the lock can be had, renewed and passed on |
| `JobIndex`, `Handshake`, `HandshakeProof`, `HandshakeOutcome`, `HandshakeAlone`, `HandshakeFault` | Job mutations, Interface mutations and package sessions over the locks; referential integrity of Jobs and Interfaces; what a mutation that succeeds has done; the LS index |
| `Sha256Spec`, `Sha256Constants`, `Sha256`, `Utf8` | FIPS 180-4 with the meaning of its constants, RFC 3629, and the loops that compute them |
| `Signature` | the two D-Bus signature parsers, the normaliser and the printer |
| `Text`, `Paging` | offset and keyset paging over one sorted list |
| `Cycle`, `CycleOutcome`, `Appender`, `Scheduler`, `Collector`, `CollectorOutcome`, `CollectorLoop` | the collector: one cycle and when it succeeds, the append stream, the timer, and all runs of them together |
| `Lifecycle`, `LifecycleOutcome` | package stop, start and uninstall of generic Jobs, and when they succeed |
| `SemVer` | version comparison against Semantic Versioning 2.0.0 |
| `Interval` | interval rounding in the frontend, and the backend's check of the result |
| `Options` | an optional value |

Protocols are state machines over steps (`Next`), and theorems about them hold in every state of
every run. Objects that the source updates in place are classes whose methods are proved to compute
a function of the old state (`Scheduler.Step`, `Collector.Step`, `Lifecycle.StopPackage`); the
properties are proved about those functions over all inputs and runs. Loops are methods with
invariants.

Invariants of protocols are kept by one lemma per kind of step. Lemmas called `...Keeps` keep the whole
invariant, `...Self` the part of the process that moves, `...Other` and `...Frame` the parts of the
others; `...Only` and `...Quiet` say what a step leaves alone. The lemmas of `OperationLockRace`,
`HandshakeFault` and `HandshakeAlone` are the stretches of one run each.

## Assumptions

* **Lock.** A live process stays less than `window` milliseconds between its first look at the guard
  directory and the end of the guard file that it writes. The probe of a process never calls a live one
  dead; it may call a dead one alive. A token carries the process that drew it, so no two are equal.
* **Reclaim.** The second inspection of the guard and the rename or unlink after it
  (`cgi-bin/runtime.js:386-399`) are two steps; `Config.atomicReclaim` makes them one.
  `Config.guardDeaths` says whether a process may die while it owns a guard file. Lock owners may
  always die. `OperationLockRace.ExcludesExactlyWhen` says for which of these settings, and which
  window and lease, the lock excludes.
* **Handshake.** Locks are taken, probed and released in one step each, as `MutualExclusion` and
  `OperationLockProbe.PassesOnlyOverFree` allow. Releases and writes may fail (a write of the index after
  an update only where `Mode.indexFaults` says so), processes may die anywhere, and a lock of a dead
  process can be taken. Lock keys are hashes of names; they are taken to be different
  for different names.
* **Files.** Replacing a file is atomic. Dates in requests are milliseconds, times of rows
  nanoseconds. An append to the database stores all its rows or none.
* **Numbers.** Lengths and counts stay in the range where JavaScript numbers are exact. Words of
  SHA-256 are `bv32`; the shifts and masks that cut bytes out of code points and of the length field
  are written as division and remainder. Intervals, delays and multipliers are reals.

## What the proofs found

* The lock excludes exactly where a window is no longer than a lease, deaths inside the guard do not
  meet a reclaim in two steps, and two windows fit into a lease unless nobody dies inside the guard and
  the reclaim is one step. For each other case there is a run from a lock left behind to two live
  holders: `OperationLockRace.TornReclaim`, `LongWindow`, `StaleStamp`, `OldSight`.
* An LS update writes the document before the index. A Job can lose an Interface it needs only while
  its index entry differs from its document and no live update is about to write it
  (`HandshakeProof.AgreedJobsResolve`), and that begins only when an update of this Job fails or dies
  between its two writes (`HandshakeProof.RunFits`). `HandshakeFault.Deletes` is a run in which it does.
* The two forms of the reference search differ: the one that scans documents, which the generic product
  uses, takes every Job with output selections for invalid and reports it for every Interface
  (`JobIndex.FindAgrees`, with a case in `JobIndex.FormsDiffer`). Such a Job blocks the removal of any
  Interface and every change of one that its calls would see (`HandshakeProof.UnreadableBlocks`).
* Signatures with 17 to 32 dictionaries nested in each other are parsed but not printed
  (`Signature.DepthGap`), since the normaliser counts a dictionary as two levels.
* A row whose time is not a whole number of milliseconds moves its cursor: the next page can begin
  with the row again (`Paging.RowComesAgain`) or leave one out (`Paging.RowIsMissed`).
  `Paging.NextNeedsExact`, `NextSkips`, `PrevNeedsExact` and `PrevSkips` say when.
* A report can count rows that the stream drops, when a string column is named that the table does
  not have (`Collector.CountedIsWritten`, with a case in `Collector.CountedNotWritten`).
* A package stop that is tried again keeps in the checkpoint exactly the Jobs that the first attempt
  left active (`Lifecycle.StopAgainKeeps`), so it forgets those that were stopped
  (`Lifecycle.StopAgainForgets`).
* A package start that is tried again starts a Job twice exactly if an attempt has, when it begins, a
  Job that an earlier attempt started before the first one whose start is refused
  (`Lifecycle.OnceExactlyWhen`, with a run in `Lifecycle.StartedTwice`).
* With the backend's default minimum of 1000 ms an interval chosen in the frontend may be refused
  (`Interval.AcceptedExactlyWhen`, with a case in `Interval.ShortIntervalRefused`).

## How the steps follow the source

| part of the model | source |
|---|---|
| `OperationLock.InspectStep`, `ReclaimStep`, `ActStep` | `inspectGuard`, `requireReclaimable` and the loop of `acquireGuard`, cgi-bin/runtime.js:287-299, 327-349, 363-403 |
| `OperationLock.TakeStep` | `writeExclusive` and `writeExisting` for guard files, cgi-bin/runtime.js:178-206, 306-326, 374-410 |
| `OperationLock.LockStep` | `acquire`, `inspectLock`, `removeStaleLock`, cgi-bin/runtime.js:269-286, 437-444, 508-532 |
| `OperationLock.LeaveStep` | `releaseGuard`, cgi-bin/runtime.js:350-362 |
| `OperationLock.PeekStep` | `assertAvailable` and `inspectLock`, cgi-bin/runtime.js:269-286, 533-536 |
| `OperationLock.OwnStep` | `readOwnedFile`, `replaceOwner`, `removeOwnedFile`, `createHandle`, cgi-bin/runtime.js:445-507 |
| `Handshake.GateStep`, `HoldStep`, `BackStep` | `withMutation`, cgi-bin/runtime.js:5452-5518 |
| `Handshake.ValidateStep` | the look-up of each call, cgi-bin/runtime.js:2101-2104 |
| `Handshake.ClearStep`, `SaveStep`, `IndexStep`, `UndoStep` | `create`, `update`, `createLs`, `deleteLs`, `syncIndex`, cgi-bin/runtime.js:5708-5720, 6021-6060, 6188-6248, 6761-6825, 7020-7053 |
| `Handshake.ReaderStep`, `SearchStep`, `ActionStep` | `guard` and the mutations that use it, cgi-bin/runtime.js:7535-7683 |
| `Handshake.OpenStep`, `CloseStep` | `acquirePackageLifecycle`, cgi-bin/runtime.js:5536-5603 |

## Model

| member | source | states |
|---|---|---|
| OperationLockProof.MutualExclusion | cgi-bin/runtime.js:508-532 | in every state of every run in a safe setting at most one live process has a handle and at most one owns a guard file; the live holder's lock file is complete and carries its token, so no assertOwned is refused; for single file operations without deaths inside the guard, and for deaths anywhere with an atomic reclaim |
| OperationLockProof.RunInv | cgi-bin/runtime.js:363-414 | the invariant behind it (one entry in the guard directory, its author the only one inside, windows younger than a lease) holds in every reachable state |
| OperationLockProof.NeverPasses | cgi-bin/runtime.js:287-299 | where nobody dies inside the guard, a guard file that is inspected in one step never passes requireReclaimable |
| OperationLockProof.NextKeeps | cgi-bin/runtime.js:363-532 | each file operation, tick and death keeps that invariant |
| OperationLockProof.ReclaimedIsDead | cgi-bin/runtime.js:287-299 | a guard file that passes requireReclaimable belongs to no live process, and nobody who saw the directory empty earlier can still create a file in it |
| OperationLockProof.ReclaimKeeps | cgi-bin/runtime.js:379-403 | the second inspection with the rename or unlink in the same step keeps the invariant although processes may die anywhere |
| OperationLockProof.CreateKeeps | cgi-bin/runtime.js:371-384 | the exclusive creation of owner.json admits one process only |
| OperationLockProof.LockKeeps | cgi-bin/runtime.js:437-444 | inside the guard, removing a stale lock and creating a new one never takes the lock from a live holder |
| OperationLockProof.OwnKeeps | cgi-bin/runtime.js:445-506 | assertOwned, heartbeat and release keep the invariant, so they never touch the lock of another live holder; what they leave is said by OperationLockUse.ReleaseFrees and OperationLockUse.BeatRenews |
| OperationLockRace.TornReclaim | cgi-bin/runtime.js:386-403 | a death inside the guard and a reclaim in two steps: a run in which a live owner.json is renamed and two live processes are inside |
| OperationLockRace.LongWindow | cgi-bin/runtime.js:374-384 | a window longer than a lease: an unfinished owner.json is renamed while its author still writes it |
| OperationLockRace.StaleStamp | cgi-bin/runtime.js:371-378 | a lease shorter than two windows and a death inside the guard: a process that saw the guard empty creates its owner.json after the reclaim |
| OperationLockRace.OldSight | cgi-bin/runtime.js:386-391 | a lease shorter than two windows and a reclaim in two steps, without a death inside the guard: the rename meets a third process |
| OperationLockRace.TwoHolders | cgi-bin/runtime.js:437-444 | in every setting that is not safe there is a run from a lock left behind to two live processes that both hold it |
| OperationLockRace.ExcludesExactlyWhen | cgi-bin/runtime.js:386-399 | for every window, lease and setting the lock excludes in all runs if and only if window <= lease, deaths inside the guard come with an atomic reclaim only, and 2 * window <= lease + 1 unless nobody dies inside the guard and the reclaim is atomic |
| OperationLockProbe.HolderStays | cgi-bin/runtime.js:508-532 | from one state to the next the lock never passes from one live holder to another without a moment in which nobody has it |
| OperationLockProbe.PassesOnlyOverFree | cgi-bin/runtime.js:533-536 | if assertAvailable passes, there was a moment between its first file operation and its return in which no live process had the lock |
| OperationLockUse.ReleaseFrees | cgi-bin/runtime.js:465-505 | in every run of a safe setting, when a live process stops holding the lock there is no lock file |
| OperationLockUse.BeatRenews | cgi-bin/runtime.js:450-487 | in every run of a safe setting a heartbeat that has ended has left the holder's token and the time it was stamped in the lock file |
| OperationLockUse.HeldLockStays | cgi-bin/runtime.js:437-464 | in every run of a safe setting the lock file of a live holder changes by the holder's own steps alone |
| OperationLockUse.GuardIsLeft | cgi-bin/runtime.js:350-362 | in every run of a safe setting a live process that gives up its guard file leaves the guard empty, unless it could not rewrite a claim; a lock file that could not be written is gone before |
| OperationLockUse.FreeIsAcquired | cgi-bin/runtime.js:508-532 | in every run a process that begins to acquire a free lock, and is alone with it while others may die and time may pass, comes back only after it has held the lock or a file of its own could not be written |
| OperationLockUse.PassesOn | cgi-bin/runtime.js:474-532 | from every state with a free lock and no guard, one process reaches a handle, gives it back and leaves the lock free, and another reaches one, without time passing or anybody else moving |
| OperationLockUse.TakesLeftLock | cgi-bin/runtime.js:437-444 | from every state in which the lock of a dead process is a lease old, a process that runs alone reaches a handle |
| OperationLockUse.TakesLeftGuard | cgi-bin/runtime.js:385-403 | so it does when a guard file of a dead process was left as well |
| OperationLockUse.FreeIsAvailable | cgi-bin/runtime.js:533-536 | assertAvailable passes over a lock that stays free |
| HandshakeProof.AgreedJobsResolve | cgi-bin/runtime.js:2101-2104 | in every state of every run of every Mode, with deaths, failing releases and failing index writes, each call of a stored Job (in LS of one whose index entry is that of its document, or whose live update is about to write it) finds its Interface and its Method |
| HandshakeProof.RunFits | cgi-bin/runtime.js:6228-6240 | among the modelled mutations, the index entry of a Job comes to differ from its document only in a step in which an update of that Job dies or fails between its two writes |
| HandshakeProof.WriteFits | cgi-bin/runtime.js:5708-5720 | every completed index write makes the entry fit again |
| HandshakeProof.ReferencesResolve | cgi-bin/runtime.js:2101-2104 | in every Mode the calls of a registered Job resolve as long as no update of this Job has ended between its two writes, from the start or since its index entry last fitted, whatever became of other Jobs |
| HandshakeProof.SafeReferencesResolve | cgi-bin/runtime.js:6021-6060 | where no index write can fail or be missed, every call of every registered Job resolves in every state |
| HandshakeProof.HandshakeExcludes | cgi-bin/runtime.js:5460-5474 | in every Mode no Job mutation relies on an Interface it has published a reader for while an Interface mutation is past its readers check for it |
| HandshakeProof.SessionExcludes | cgi-bin/runtime.js:5536-5603 | in every Mode a package session and a Job mutation past its second fence check never have one Job; the session's fence outlives all its Job locks and handles even where releases throw |
| HandshakeProof.FenceBlocks | cgi-bin/runtime.js:5452-5461 | in every Mode a Job mutation that comes to its second fence check while a session has the fence gives up |
| HandshakeProof.IndexAgrees | cgi-bin/runtime.js:7434-7447 | in every LS Mode the index of a registered Job is fromDocument of its document, except between the two writes of a live update and after an update of that Job that ended there; for Jobs of which this is so, the search through the index and the scan of the documents report the same if and only if the scan can read each document |
| HandshakeProof.SavesRaiseRevision | cgi-bin/runtime.js:2330-2345 | in every Mode a step that replaces a stored document writes a different configuration under the next revision; a created document has revision 1 |
| HandshakeProof.ReportsAll | cgi-bin/runtime.js:7434-7447 | where no Job mutation relies on an Interface, either form of the reference search reports every registered Job that refers to it and whose index entry fits or is about to be written |
| HandshakeProof.UnreadableBlocks | cgi-bin/runtime.js:7408-7427 | in the generic product a Job that the scan cannot read is reported for every Interface, which refuses its removal and every change of what a call sees |
| HandshakeProof.ProbedReader | cgi-bin/runtime.js:7543-7546 | a reader lock that can be taken belongs to no Job mutation that still relies on the Interface |
| HandshakeProof.WriteConsistent | cgi-bin/runtime.js:7585-7683 | the guarded write of an Interface leaves the references of every Job whose index entry agrees resolved |
| HandshakeProof.NextKeeps | cgi-bin/runtime.js:5452-5603 | every step of every process, every death and every new Interface keeps the invariant behind these theorems, which says of a mutation that succeeded what HandshakeOutcome.JobIsChanged and HandshakeOutcome.InterfaceStays state |
| HandshakeOutcome.JobIsChanged | cgi-bin/runtime.js:6228-6248 | in every state of every run: once a Job mutation has succeeded and while it has the Job lock, a deleted Job is neither stored nor indexed; a created or updated one is stored with the configuration given, which has a call, and in LS its index entry is that of the document |
| HandshakeOutcome.EndsHolding | cgi-bin/runtime.js:5489-5507 | the step with which it succeeds leaves it the Job lock |
| HandshakeOutcome.InterfaceIsChanged | cgi-bin/runtime.js:7585-7683 | the step with which an Interface mutation succeeds: the store has the new Interface or no longer has the id and is otherwise as it was, and no Job whose index entry agrees refers to the Interface unless a call sees nothing of the change |
| HandshakeOutcome.InterfaceStays | cgi-bin/runtime.js:7535-7583 | as long as that mutation has its lock on the Interface, the new Interface is the stored one |
| HandshakeOutcome.ReportsExactly | cgi-bin/runtime.js:7408-7447 | a Job whose index entry agrees, and which in the generic product the scan can read, is reported for exactly the Interfaces its calls name |
| HandshakeOutcome.FilesUnderLock | cgi-bin/runtime.js:5452-5518 | in every run the document and the index entry of a Job are stored, changed and removed only by a process that has the Job lock |
| HandshakeAlone.JobMutationEnds | cgi-bin/runtime.js:6761-6825 | from every state without locks, a create of a Job that is not registered, an update or a delete of one that is, with calls that resolve, reaches its end: the Job is as the task says, nothing else has changed, no lock is left |
| HandshakeAlone.InterfaceMutationEnds | cgi-bin/runtime.js:7535-7683 | from every state without locks, a change that the Jobs found allow reaches its end: the store has it, nothing else has changed, no lock is left |
| HandshakeAlone.SessionEnds | cgi-bin/runtime.js:5536-5603 | from every state without locks, a package session gets the fence and any set of Job locks, can delete any of these Jobs in the generic product, and ends with no lock left |
| HandshakeFault.Deletes | cgi-bin/runtime.js:6228-6240 | from a consistent store in which every Job has a call, a run in which an LS update replaces the call and saves its document, fails to write the index, and the Interface of the new call is then deleted |
| HandshakeFault.CallIsLost | cgi-bin/runtime.js:7621-7627 | at the end of that run the call of the registered Job does not resolve, and its index entry is still that of the call before |
| HandshakeFault.ResolvesExactlyWhen | cgi-bin/runtime.js:5708-5720 | the references of all registered Jobs resolve in all runs if and only if it is not the LS product with an index write that can fail; for single Jobs see AgreedJobsResolve |
| JobIndex.References | cgi-bin/runtime.js:3846-3876 | fromDocument lists one reference per call, in call order |
| JobIndex.IndexIs | cgi-bin/runtime.js:3846-3876 | what fromDocument keeps: the document's head and settings, the number of calls, exactly the Interfaces named by a text that is not empty, and one reference per call |
| JobIndex.TagTotalJoins | cgi-bin/runtime.js:3840-3856 | tags are counted call by call over all output selections |
| JobIndex.DistinctIs | cgi-bin/runtime.js:7430-7459 | the Methods of a report have no repetition, are exactly those of the calls, and stand in the order of their first occurrence |
| JobIndex.MatchingJoins | cgi-bin/runtime.js:7430-7459 | the calls found in two lists joined are those of each, in order; with JobIndex.MatchingOne each call is found or left out by itself |
| JobIndex.MatchingOne | cgi-bin/runtime.js:7430-7459 | a single call is found exactly if it names the Interface, and the Method if one is asked for |
| JobIndex.ReportIs | cgi-bin/runtime.js:7434-7447 | where each index entry is that of its document, a usage is reported if and only if it is that of a listed Job with a matching call, with all its matching calls and their Methods |
| JobIndex.FilterScans | cgi-bin/runtime.js:7434-7447 | filtering the references of the index finds the calls that a filter of the calls finds |
| JobIndex.FindAgrees | cgi-bin/runtime.js:7434-7459 | where each index entry is that of its document, both forms of find return the same usages if and only if every listed document has a call, only calls without output selections, and no call id twice |
| JobIndex.UnreadableInvalid | cgi-bin/runtime.js:7418-7427 | any other document is reported as invalid by the scan, for every Interface and Method |
| JobIndex.FormsDiffer | cgi-bin/runtime.js:7418-7427 | a Job with one output selection, which the index reports for its own Interface only and the scan as invalid for each |
| Sha256.AppendZeros | cgi-bin/src/config/sha256.js:45-46 | the fewest zero bytes that leave room for the length |
| Sha256.Pad | cgi-bin/src/config/sha256.js:43-52 | the padding of section 5.1.1 of FIPS 180-4, with the exact bit length in big-endian order below 2^53 |
| Sha256.PaddingInjective | cgi-bin/src/config/sha256.js:45-52 | no two messages share a padded form |
| Sha256.PaddingUnique | cgi-bin/src/config/sha256.js:45-52 | section 5.1.1 leaves one padded form per message |
| Sha256.DigestUnique | cgi-bin/src/config/sha256.js:42-85 | the specification gives each message one hash value |
| Sha256.ExpandBlock | cgi-bin/src/config/sha256.js:56-67 | the words array is the recursive message schedule of section 6.2.2 |
| Sha256.RoundMeaning | cgi-bin/src/config/sha256.js:70-79 | the source's order of additions in one round gives the round of section 6.2.2 |
| Sha256.CompressBlock | cgi-bin/src/config/sha256.js:56-81 | one turn of the block loop is 64 rounds of the specification and the sum with the previous hash value |
| Sha256.HashBytes | cgi-bin/src/config/sha256.js:43-82 | the block loop computes the hash value of section 6.2.2 for every message shorter than 2^53 bits |
| Sha256.WordHex | cgi-bin/src/config/sha256.js:37-40 | eight digits that spell the word |
| Sha256.HashHex | cgi-bin/src/config/sha256.js:83-84 | 64 hexadecimal digits, of which each eight, most significant first, are the value of one word of the hash, in the order from a to h |
| Sha256.SpellsOne | cgi-bin/src/config/sha256.js:83-84 | two texts that spell hash values so are equal if and only if the hash values are |
| Sha256.Sha256 | cgi-bin/src/config/sha256.js:42-85 | the result spells, in that sense, the hash value of the UTF-8 form of the text |
| Sha256Constants.PrimesAre | cgi-bin/src/config/sha256.js:3-12 | the numbers behind the constants are the primes up to 311, all of them in ascending order |
| Sha256Constants.ConstantsAreCubeRoots | cgi-bin/src/config/sha256.js:3-12 | the round constants are the first 32 bits of the fractional parts of the cube roots of the first 64 primes, section 4.2.2 of FIPS 180-4 |
| Sha256Constants.InitialHashIsSquareRoots | cgi-bin/src/config/sha256.js:53-54 | the initial hash value is made of those of the square roots of the first eight primes, section 5.3.3 |
| Utf8.Utf8Bytes | cgi-bin/src/config/sha256.js:17-35 | decoding the result by section 3 of RFC 3629 gives the scalars of the text, each lone surrogate read as U+FFFD |
| Utf8.DecodeEncodedAll | cgi-bin/src/config/sha256.js:29-32 | decoding undoes encoding for every sequence of scalars |
| Utf8.EncodeDecoded | cgi-bin/src/config/sha256.js:29-32 | well-formed UTF-8 is the encoding of what it decodes to, so the decoder accepts no other bytes |
| Utf8.Utf8ByteLength | cgi-bin/runtime.js:4887-4900 | the separate counter returns the number of those bytes |
| Signature.ParseType | cgi-bin/runtime.js:1781-1809 | for every text, offset and depth: the only type of the grammar that stands there within the depth left and the offset after it, or nothing if and only if none stands there |
| Signature.ParseSignatureType | cgi-bin/runtime.js:1748-1771 | the offset after such a type, or -1 if and only if none stands there |
| Signature.ParsersAgree | cgi-bin/runtime.js:1748-1809 | for every text, offset and depth both parsers accept alike and stop at one offset |
| Signature.ValidSignature | cgi-bin/runtime.js:1772-1780 | true exactly for concatenations of types of the grammar, none nested too deeply, of at most 255 characters |
| Signature.TypeFromSignature | cgi-bin/runtime.js:1810-1814 | the type that the whole text denotes, if it denotes one |
| Signature.Unique | cgi-bin/runtime.js:1781-1809 | at one offset of a text at most one type can be read |
| Signature.UniqueReading | cgi-bin/runtime.js:1772-1780 | a signature is a list of types in one way only |
| Signature.Normalize | cgi-bin/runtime.js:1831-1849 | the same type back, if and only if it is well formed and the nesting that counts dict entries fits |
| Signature.SignatureFromType | cgi-bin/runtime.js:1815-1830 | the printed form of every type that normalises, although each level is normalised again |
| Signature.PrintParsed | cgi-bin/runtime.js:1810-1830 | a parsed signature is printed as it was, or not at all exactly where the nesting with dict entries exceeds 32; that nesting is at most twice the parsed one |
| Signature.ParsePrinted | cgi-bin/runtime.js:1810-1849 | a printed type is read back exactly if it is no dict entry and has at most 255 characters; a dict entry is never read |
| Signature.DepthGap | cgi-bin/runtime.js:1831-1841 | n nested dictionaries are a signature up to 32 and are printed up to 16 |
| Paging.PageParams | cgi-bin/runtime.js:2830-2856 | a request is accepted exactly if its numbers are in range, its dates in order and its cursor fields given together; then every parameter is the one asked for or its default |
| Paging.OpcuaPage | cgi-bin/runtime.js:2878-2931 | with unique keys, or without a prev cursor, the page is the slice of the one sorted listing that page number or cursor names; in every case it shows rows of the table that were asked for, none more often than the table has it, at most as many as the page size, with name, value and milliseconds of each |
| Paging.ListingIs | cgi-bin/runtime.js:2891-2920 | by names, dates and times alone: the listing has each row with one of the names and within the dates exactly as often as the table has it and no other, by time in the direction of display and by name at equal times |
| Paging.FetchedSelects | cgi-bin/runtime.js:2891-2931 | every row that a page takes from the table has one of the names and lies within the dates, for every table and request |
| Paging.NumberedPage | cgi-bin/runtime.js:2914-2919 | page k has the rows of the listing from (k - 1) times the size on, a bounded range all of them |
| Paging.NextPage | cgi-bin/runtime.js:2857-2865 | a next cursor divides the listing into the rows up to it and those after it by time and name; its page begins there, as many rows later as the offset says |
| Paging.PrevPage | cgi-bin/runtime.js:2857-2865 | a prev cursor divides it into the rows before it and the others; its page ends there, as many rows earlier as the offset says |
| Paging.ShowMeans | cgi-bin/runtime.js:2866-2877 | a row is shown with its name, its value and its time cut to milliseconds toward zero |
| Text.LessMeans | cgi-bin/runtime.js:2857-2865 | names are ordered by the first character in which they differ, a prefix before what it begins |
| Paging.CursorClause | cgi-bin/runtime.js:2857-2865 | the clause of a cursor holds of exactly the rows beyond its key in the order of its scan |
| Paging.FetchedIsPage | cgi-bin/runtime.js:2878-2920 | filtering, sorting either way, limiting and reversing gives that slice |
| Paging.SortFlipped | cgi-bin/runtime.js:2857-2865 | with unique keys the opposite order is the reversed list |
| Paging.NextExactly | cgi-bin/runtime.js:2861-2864 | a next cursor at a row gives the slice after it if and only if the cut time lies between the row and its successor |
| Paging.PrevExactly | cgi-bin/runtime.js:2862-2864 | a prev cursor at a row gives the slice before it, in display order, under the mirrored condition |
| Paging.ExactMeets | cgi-bin/runtime.js:2483-2497 | whole milliseconds meet both conditions |
| Paging.NextNeedsExact | cgi-bin/runtime.js:2483-2497 | where cutting the time moves the key before the row in the order of display (oldest first from the epoch on, latest first before it), the next cursor is right exactly at whole milliseconds |
| Paging.NextSkips | cgi-bin/runtime.js:2483-2497 | where it moves the key after the row, the next cursor is right exactly if the following row lies beyond the cut time, or at it with a greater name |
| Paging.PrevNeedsExact | cgi-bin/runtime.js:2483-2497 | where it moves the key after the row, the prev cursor is right exactly at whole milliseconds |
| Paging.PrevSkips | cgi-bin/runtime.js:2483-2497 | where it moves the key before the row, the prev cursor is right exactly if the preceding row lies before the cut time, or at it with a smaller name |
| Paging.RowComesAgain | cgi-bin/runtime.js:2857-2865 | a table and two requests, oldest first, of which the second asks for what follows the first and gets the same row |
| Paging.RowIsMissed | cgi-bin/runtime.js:2857-2865 | a table and requests, latest first, where the cursor misses a row that the second page by number has |
| Paging.CursorPages | cgi-bin/runtime.js:2878-2931 | the next cursor at a page's last row fetches the following page and the prev cursor at its first row the preceding one, in both directions |
| Cycle.ShortError | cgi-bin/src/collector/cycle.js:16 | a message of at most 500 characters is kept, a longer one is cut to 497 and three dots |
| Cycle.Writable | cgi-bin/src/collector/cycle.js:57-60 | without a string column no row with a string is left, and all rows are exactly if none has one |
| Cycle.WritableJoins | cgi-bin/src/collector/cycle.js:57-60 | the rows of two lists joined are those of each, in order; with Cycle.WritableOne each row is kept or dropped by itself |
| Cycle.WritableOne | cgi-bin/src/collector/cycle.js:57-60 | a single row is kept exactly if there is a string column or it has no string |
| Cycle.AppendsLand | cgi-bin/src/collector/cycle.js:87-103 | the appends that return leave exactly the stored rows, in order; only the last append can fail, none is empty, and under afterAllMethods there is at most one, within the limit; which rows these are is said by CycleOutcome |
| CycleOutcome.AtOnceSucceeds | cgi-bin/src/collector/cycle.js:92-107 | under afterAllMethods a cycle succeeds if and only if no call is a fault, the writable rows of all calls are at most the limit, and their append is accepted or there is nothing to append; then it stores exactly these rows in the order of the calls, and otherwise none |
| CycleOutcome.AtOnceEnds | cgi-bin/src/collector/cycle.js:92-100 | the first call that is a fault, or with whose rows the limit is passed, ends the cycle with its own message or as a full buffer; the calls before are reported as successful with nothing stored |
| CycleOutcome.AtOnceRefused | cgi-bin/src/collector/cycle.js:101-105 | where the one append is refused, every call and the cycle are reported as failed with it |
| CycleOutcome.OneByOneSucceeds | cgi-bin/src/collector/cycle.js:95-107 | under perMethod a cycle succeeds if and only if every call delivers rows whose append is accepted, or none to append; then it stores the writable rows of all calls |
| CycleOutcome.OneByOneEnds | cgi-bin/src/collector/cycle.js:95-107 | the first call that does not ends the cycle with its own message or as a failed append; the rows of the calls before are stored and counted, and the report is partial exactly if there are any |
| CycleOutcome.TimesInOrder | cgi-bin/src/collector/cycle.js:72-106 | with a clock that does not go back, the times of the report follow each other in the order of the calls, each of which is the Job's |
| Cycle.Conservation | cgi-bin/src/collector/cycle.js:76-107 | the stored counts of the report, the rows of the appends that returned, and the stored rows are equally many |
| Cycle.StatusMeans | cgi-bin/src/collector/cycle.js:106-107 | success if and only if every call was made and succeeded; partial if and only if a failure left something stored, which only perMethod can |
| Appender.MappingIs | cgi-bin/src/db/appender.js:75-85 | rows can be mapped exactly if the first primary key, the first base time and the first column of the configured name are there and named; these are the columns used, with the string column if there is one |
| Appender.Stream.Open | cgi-bin/src/db/appender.js:54-91 | open afterwards exactly if every step succeeded and the table has the columns needed; closed completely otherwise |
| Appender.Stream.Append | cgi-bin/src/db/appender.js:92-115 | rows are written only to an open stream, filtered by the columns of the table |
| Appender.Stream.Close | cgi-bin/src/db/appender.js:42-51 | nothing of the stream is left |
| Scheduler.OnePending | cgi-bin/src/collector/scheduler.js:9-45 | in every run exactly one timer is pending between callbacks while started and none once stopped |
| Scheduler.Backoff | cgi-bin/src/collector/scheduler.js:3-35 | after k failures in a row the pending timer has the delay min(maximum, initial * multiplier^(k-1)), after a success the interval |
| Scheduler.BackoffBounds | cgi-bin/runtime.js:2185-2187 | with validated settings the delays never fall while failures last and stay between initial and maximum |
| Scheduler.StepSettles | cgi-bin/src/collector/scheduler.js:16-45 | each start, timer and stop keeps that, and a stop leaves no timer |
| Scheduler.Timer.Start | cgi-bin/src/collector/scheduler.js:37-41 | one step of the state machine; a started scheduler ignores it |
| Scheduler.Timer.Fire | cgi-bin/src/collector/scheduler.js:24-35 | one step of the state machine for a timer that fires |
| Scheduler.Timer.Stop | cgi-bin/src/collector/scheduler.js:42-46 | one step of the state machine, after which no timer is pending |
| Collector.RunsAreSound | cgi-bin/src/collector/entry.js:85-184 | after every input of every run: rows were appended only to an open stream, never again in a cycle after a failed append, never after the shutdown, and the report carries the completion times of the latest successful and the latest storing cycle, across setup failures |
| Collector.StepSound | cgi-bin/src/collector/entry.js:116-183 | each callback and the shutdown keep this |
| Collector.CycleFinishes | cgi-bin/src/collector/entry.js:116-126 | a cycle on an open stream keeps the trace legal and the times right, and leaves the stream open and ready exactly if every append succeeded |
| Collector.AppendsLegal | cgi-bin/src/collector/entry.js:116-126 | the events of a cycle's appends keep the trace legal |
| Collector.ReportTimes | cgi-bin/src/collector/cycle.js:107 | lastSuccessfulRunAt and lastStoredAt change to the completion time exactly on success and on storing |
| Collector.CountedIsWritten | cgi-bin/src/db/appender.js:92-96 | the counts of a report are the rows in the table if and only if the table has the string column or no stored row has a string |
| CollectorOutcome.WrittenIs | cgi-bin/src/db/appender.js:92-96 | what a cycle leaves in the table are the stored rows in their order, without those the table has no column for |
| CollectorOutcome.RowsReachTable | cgi-bin/src/collector/entry.js:150-183 | after a callback in which the stream is or can be opened, every call delivers within the limit and everything is accepted, the table has the rows of all calls after those before, success is reported, and one timer is pending at the interval |
| CollectorOutcome.FailedOpenReports | cgi-bin/src/collector/entry.js:153-166 | after a callback in which the stream cannot be opened nothing is written and a failure without calls is reported with the earlier times |
| Collector.CountedNotWritten | cgi-bin/src/db/appender.js:66-79 | a Job and a table without its string column: the first cycle reports one stored row and writes none |
| CollectorLoop.Process.RunCycle | cgi-bin/src/collector/cycle.js:70-108 | the loop makes exactly the appends and the report of module Cycle, whose success, stored rows and errors CycleOutcome gives by what the calls deliver, the limit and the answers of the appends |
| CollectorLoop.Process.MakeCalls | cgi-bin/src/collector/cycle.js:76-100 | calls are made up to the first that fails, with their rows buffered or stored |
| CollectorLoop.Process.AppendAll | cgi-bin/src/collector/cycle.js:101-105 | one append of the buffer, and what its outcome makes of the reports |
| CollectorLoop.Process.Store | cgi-bin/src/collector/entry.js:116-126 | an append that fails closes the stream and marks it as not ready |
| CollectorLoop.Process.Run | cgi-bin/src/collector/entry.js:153-172 | the stream is opened when not ready; a failure to open is reported with the earlier times |
| CollectorLoop.Process.Begin | cgi-bin/src/collector/entry.js:150-183 | the first callback is one step of the state machine |
| CollectorLoop.Process.Fire | cgi-bin/src/collector/entry.js:150-182 | a timer is one step of the state machine |
| CollectorLoop.Process.Halt | cgi-bin/src/collector/entry.js:128-142 | the shutdown is one step of the state machine |
| Lifecycle.StartJob | cgi-bin/runtime.js:6460-6560 | exactly when a start succeeds; the Job is then running or starting, and one that is refused before the controller is asked stays as it is |
| Lifecycle.StopJob | cgi-bin/runtime.js:6649-6700 | exactly when a stop succeeds; the Job is then idle, and only an active Job can change |
| Lifecycle.DeleteJob | cgi-bin/runtime.js:6719-6757 | exactly when a delete succeeds, only for an idle Job, and the state that a failure leaves |
| LifecycleOutcome.StopSucceedsExactlyWhen | scripts/lifecycle.js:154-203 | a stop succeeds if and only if session, list, locks, checkpoint and release are in order and every Job is known and, where active, can be stopped |
| LifecycleOutcome.StartSucceedsExactlyWhen | scripts/lifecycle.js:205-240 | a start succeeds if and only if Jobs and checkpoint can be read, the checkpoint removed, and no Job is refused that can be started and is in the checkpoint if there is one |
| LifecycleOutcome.StartWithoutCheckpoint | scripts/lifecycle.js:213-217 | without a checkpoint the Jobs that can be started are started in order, each once, up to the first that is refused, all of them if it succeeds; no other Job is touched |
| LifecycleOutcome.UninstallSucceedsExactlyWhen | scripts/lifecycle.js:242-302 | an uninstall succeeds if and only if session, list, locks, checkpoint and release are in order, every active Job can be stopped, and every Job can then be deleted |
| LifecycleOutcome.DeletesEach | scripts/lifecycle.js:32-43 | each name is deleted from its own state; those that cannot be stay in the state this leaves and are reported |
| LifecycleOutcome.SortInOrder | scripts/lifecycle.js:165-168 | names are taken in ascending order |
| Lifecycle.StopSeriesIs | scripts/lifecycle.js:32-43 | eachSeriesCollect treats every name from its own state and reports exactly the failures |
| Lifecycle.StartSeriesIs | scripts/lifecycle.js:18-30 | eachSeries starts exactly the names before the first whose start is refused, all of them if and only if none is; each that was tried has the state its start leaves, and every other Job the one it had |
| Lifecycle.StopCheckpoints | scripts/lifecycle.js:154-203 | after a successful stop no Job is active and the checkpoint names exactly those that were, each once |
| Lifecycle.AttemptStarts | scripts/lifecycle.js:205-240 | from what it meets, what an attempt does: it starts the Jobs of the checkpoint that can be started, each once, up to the first that is refused, and succeeds exactly if none is and list and checkpoint are in order; only then it removes the checkpoint |
| Lifecycle.RetryStarts | scripts/lifecycle.js:205-240 | start tried again until it succeeds, with any changes in between: the checkpoint survives each failed attempt and is gone after the last, which starts every Job of the checkpoint that can be started then; no other Job is ever started |
| Lifecycle.OnceExactlyWhen | scripts/lifecycle.js:205-240 | over all attempts no Job is started twice if and only if no attempt, when it begins, has before its first refusal a Job that an earlier attempt started |
| Lifecycle.FreshExactlyWhen | scripts/lifecycle.js:216-220 | for every attempt, failing or not, that is so exactly if each Job of its list that was started earlier stands at or behind one whose start is refused; for one that succeeds, exactly if no Job started earlier can be started when it begins |
| Lifecycle.StartedTwice | scripts/lifecycle.js:205-240 | a run of two attempts that starts a, then a and b |
| Lifecycle.StopThenStart | scripts/lifecycle.js:154-240 | from one successful stop to the first successful start: only Jobs active at the stop are started, among them all that can be at the end, and none twice exactly under that condition |
| Lifecycle.StopAgainKeeps | scripts/lifecycle.js:163-200 | a stop tried again until it succeeds leaves in the checkpoint exactly the Jobs that the first attempt left active, so it forgets none if and only if the first attempt left all of them active |
| Lifecycle.StopAgainForgets | scripts/lifecycle.js:182-190 | two Jobs, of which the first attempt stops one and fails at the other: the one it stopped is forgotten |
| Lifecycle.UninstallIsSafe | scripts/lifecycle.js:242-302 | no Job is removed unless every active Job was stopped; what is removed is recorded as deleted; after success all Jobs and the checkpoint are gone |
| Lifecycle.Package.Stop | scripts/lifecycle.js:154-203 | the action as a function of Jobs, checkpoint and what it meets |
| Lifecycle.Package.Start | scripts/lifecycle.js:205-240 | the action as a function of Jobs, checkpoint and what it meets |
| Lifecycle.Package.Uninstall | scripts/lifecycle.js:242-302 | the action as a function of Jobs, checkpoint and what it meets |
| SemVer.CompareSemVer | cgi-bin/runtime.js:7768-7784 | negative, positive and zero exactly where section 11 of Semantic Versioning 2.0.0 gives lower, higher and equal precedence |
| SemVer.CompareIdentifier | cgi-bin/runtime.js:7761-7767 | the order of section 11.4, with zero for equal identifiers only |
| SemVer.LowerTotal | cgi-bin/runtime.js:7768-7784 | any two versions are ordered one way only, unless they are equal up to build metadata |
| SemVer.LowerTransitive | cgi-bin/runtime.js:7768-7784 | the order is transitive |
| SemVer.AtMostTransitive | cgi-bin/runtime.js:7768-7784 | "at most" is a total preorder |
| Interval.TaskPeriodMs | frontend/src/model.js:35-38 | an integer period within the day is kept, anything else becomes 1 |
| Interval.MaxIntervalMultiplier | frontend/src/model.js:40-42 | the largest multiplier whose multiple fits the day |
| Interval.LeastMultiple | frontend/src/model.js:44-56 | the chosen interval is the least positive multiple not below the request, or the largest within the day if none reaches it, or the period where no number was asked for |
| Interval.MultiplierRoundTrip | frontend/src/model.js:44-56 | a multiplier comes back from its interval exactly if it is within the bounds |
| Interval.Idempotent | frontend/src/model.js:44-56 | choosing again changes nothing |
| Interval.AcceptedExactlyWhen | cgi-bin/runtime.js:2179-2182 | by period, request and minimum alone: exactly when the backend accepts the interval chosen for a request; with minimum 1 exactly for periods that are no integer beyond the day |
| Interval.ShortIntervalRefused | cgi-bin/runtime.js:2179-2180 | a period of 10 ms and a request of 5 ms give an interval that the default minimum refuses |

## Left out

- OperationLockProof.MutualExclusion: legacy directory locks (`cgi-bin/runtime.js:237-268`, `415-436`) are not modelled, a failing `setInterval` in createHandle is not, and file operations fail only where another process caused it or a write runs out.
- OperationLockUse.BeatRenews: a temporary file that cannot be written, or not renamed, which ends a heartbeat without renewing the lock.
- OperationLockUse.ReleaseFrees: an unlink that fails, which ends a release with the lock file left.
- JobIndex.FindAgrees: of what the scan asks of a document, names and the forms of identifiers are not modelled; stored documents meet it.
- HandshakeProof.AgreedJobsResolve: test-mode normalisation and log updates, which save documents without changing their calls, are not steps; createInterface with its allocation lock is one step.
- Lifecycle.RetryStarts: the list of Jobs is taken with the actions, so a Job mutation that was already under way when a session began is not seen.
- Lifecycle.StopCheckpoints: what is active is what the list of Jobs says.
- Sha256.Sha256: texts whose UTF-8 form has 2^53 bits or more.
- CollectorLoop.Process.RunCycle: D-Bus call, decoder, transforms and argument building are one outcome per call; `sanitizeLastRun` drops no field of the model; building rows from selections is left out.
- Appender.Stream.Append: the cells of a row are not modelled, and an append stores all its rows or none.
- Scheduler.OnePending: callbacks that call start or stop from within.
- Paging.OpcuaPage: for tables with equal keys it is not said which rows a backward scan shows, only that they were asked for; number and string column are one value; column look-up and the text of dates are not modelled.
- SemVer.CompareSemVer: the pattern that splits a text into its fields.
- createLogSummary: counters for log lines only.
- reorder, tag tables and the other helpers of the frontend: pure list edits without a further property.
- The Profile manager and its lock: repeats the Interface guard with less structure.
- The Go collector, the servicectl path of the package scripts, the LS package path, and the web interface.
- JSON text, settings validation, HTTP mapping and sanitising.
