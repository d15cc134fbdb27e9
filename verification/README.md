# fiberd, modelled and proved in Dafny

fiberd runs short-lived fibers under signed capacity grants. A *grant* admits a home to run up to
`fibers.max` fibers; a *session* is a named fiber that can be parked to a delta and resumed; every
incarnation carries a *fence* (grant uid, epoch, sequence number). This project models the parts of
fiberd whose correctness depends on interleavings, on failures in the middle of a write, or on an exact
byte format, and proves what they promise for every run and every input.

Concurrent code is a step machine: one step is one hold of a mutex (or one effect at the runtime, the
disk or the control plane), and theorems quantify over all interleavings of any number of callers. Objects
that change in place are classes with the source's fields. `Cores.Core`, `SessionGateRuns.Gates`,
`AdmissionRuns.Home`, `GroupCommitRuns.Syncer`, `HeldRuns.Keeper` and `Persists.Store` run one caller's code
against interference: between two of its lock holds the others may take any steps the machine allows, and
the contracts hold for all of them.

| files | what they model |
|---|---|
| `Common`, `Decimal`, `ByteStrings` | options and set sizes, decimal numerals, big-endian integers |
| `Fences` | fences and their text form |
| `LedgerState`, `Ledger` | the ledger: each lock hold as a function on values, and the object that does it in place |
| `CloneProtocol`, `CloneInvariant`, `CloneTheorems` | clone, park, release, exit, revoke, epoch move and drain as one step machine, its inductive invariant, and the theorems over runs |
| `Core` | `Clone`, `Yield`, `BumpEpoch`, `Drain`, `OnExit` as they run among others |
| `SessionGate`, `SessionGateRuns` | the reference-counted per-session gates, refined to a lock table |
| `Revoked`, `Admission`, `AdmissionRuns` | the deny-list, single-flight admission and removal |
| `AuditSpool`, `AuditWriter`, `AuditAgreement`, `AuditTamper` | the hash-chained spool, its writer and verifier, their agreement, tamper evidence |
| `AuditReport` | what the verifier's report says of the chain, and when checkpoints come |
| `AuditSync`, `AuditDurability` | writes with their shared fsync, and what survives a crash |
| `GroupCommit`, `GroupCommitRuns` | shared fsync with a sticky failure |
| `Persist` | coalesced snapshot writes |
| `Reconcile`, `ReconcileTheorems` | boot from the last snapshot, and what later snapshots name |
| `RestoredSessions`, `HeldRuns` | sessions boot held, put back while clones run, and snapshots written meanwhile |
| `ReadyGate` | the single-flight readiness publisher |
| `PoolRefill` | round-robin refill of warm pools |
| `Seal` | chunked authenticated sealing |
| `ServerName`, `ServerNameGrammar` | the ClientHello server-name parser and the format it reads |
| `Records` | the channel record codec |

## What does not hold as stated, and exactly when it does

- **Capacity.** The slots an entry counts equal its fibers and reservations if and only if the ledger held
  no fiber of the uid when the entry was admitted (`CloneTheorems.CapacityConserved`). A grant with
  `fibers.max` 1, revoked and admitted again while its fiber is still listed, runs two
  (`CloneTheorems.ReadmissionOverLiveFiberOvercommits`), because park and exit decrement by uid while a
  commit that never happened decrements the captured entry.
- **Audit.** `Append` and `Close` go on when their own gap record failed to write. After an append the file
  verifies if and only if it did not write its record behind such a failure on a spool that has a chain
  (`AuditAgreement.AppendVerifiesExactly`, `IgnoredGapFailureIsRefused`). On a spool without one the record
  becomes the chain's first, and the next append that writes anything is refused (`SkippedGapIsCaught`).
  Closing is exact too (`CloseVerifiesExactly`). A write that reports failure though the whole record landed
  breaks the chain as well (`WholeRecordIsRefused`).
- **Removal.** `exp` is the lease cut to the second, so a lease may outlive the denial of its token by part
  of a second and be admitted then (`Admissions.SubSecondLeaseSlipsIn`). In any state a lease gets in before
  the grant is delivered again if and only if it is unexpired and admitted already, past its deny check, or
  outlasting the denial as it then stands (`Admissions.GetsInExactly`); a finished removal leaves none of
  these for a lease its denial covers (`RemovalShuts`).
- **Boot.** A held session is in the next snapshot if and only if its grant was not admitted as well
  (`ReconcileTheorems.HeldIsNamedExactly`); a file that lists a grant twice can lose one
  (`DuplicateGrantLosesItsSession`). fiberd never writes such a file (`NextBootAccepts`). A restored or held
  session's delta survives if no running session of the snapshot names the same ref, and only if, when the
  runtime's discards succeed (`Reconciling.Boot.Reconcile`). Each grant admitted again at boot writes the
  snapshot file before any session is restored, so a boot that then cannot list the runtime's fibers, and
  exits, has written a file that names none. The file names every session boot keeps if and only if the
  fibers were listed, no grant was admitted, or there was none to keep (`BootThatCannotListForgets`).
- **Clone.** An error does not always mean that there is no fiber. When the birth could not be recorded and the
  runtime could not release the fiber either, it is committed so that it stays counted; in every other
  case a miss leaves none (`Cores.Core.Clone`).
- **Held sessions.** `restoreHeld` takes no session gate, so a clone that found no session may commit over one
  restored meanwhile, which is then running without its delta
  (`RestoredSessions.FreshCloneOverwritesRestored`). A restored session can lose its delta, other than by
  being parked, released, ended or forgotten, if and only if at the restore some clone of it that started
  from another delta or none is in flight and its grant entry, its epoch and the drain still let it commit
  (`RestoredIsSafeExactly`); in a given run it does if and only if such a clone commits (`DeltaStaysExactly`).
- **Snapshots.** `snapshot` captures the ledger and the held grants under two locks. A session held at the
  first capture and unknown to the ledger is named if and only if its grant was not admitted then and is not
  let go before the second (`ReconcileTheorems.FileNamesExactly`); an admission between the two leaves a file
  that names neither (`AdmissionBetweenCapturesForgets`), until the next one.
- **Ready gate.** A publish that lands and still reports an error leaves the gate wrong about the control
  plane. If the warm set then flips back, nobody sends (`ReadyGates.LandedFailureSticks`,
  `NobodySendsWhileSettled`). A republish that goes through repairs the bit if and only if the gate has
  something to send or the bit was right (`RepublishRepairsExactly`).
- **Records.** An incarnation survives its packet if and only if no identity field is literally `-`; with
  all four `-` the identity is silently absent (`Records.IncarnationRoundTrip`).
- **Sealing.** A file opens again if and only if its header fits 65536 bytes; `sealFile` does not check
  (`Seal.SealRoundTrip`).

The comment at `pkg/core/drain.go:58-60` says a clone may still commit after the drain's first listing. The
code no longer allows it: commit asks for the drain flag under the ledger's lock
(`pkg/core/ledger.go:306-312`), and the model follows the code.

A fiber's id is its fence's text (`pkg/runtime/host/host_linux.go:1749`), so that fiber ids are fresh is a
theorem here (`CloneInvariant.MintedFenceIsNew`, `Fences.FenceStringInjective`), not an assumption.

## Model

| member | source | states |
|---|---|---|
| `Fences.ParseFenceInvertsString` | pkg/core/fence.go:22-52 | parsing gives a fence back from its text if and only if the uid is not empty and both numbers fit 64 bits |
| `Fences.StringInvertsParseFence` | pkg/core/fence.go:22-52 | text that parses is the text of what it parsed to if and only if both numerals have no leading zeros |
| `Fences.FenceStringInjective` | pkg/core/fence.go:22-26 | distinct fences have distinct texts, so distinct fiber ids |
| `LedgerState.SessionKeyInjective` | pkg/core/ledger.go:260-261 | session keys of slash-free uids never collide |
| `LedgerState.PoolRoom` | pkg/core/ledger.go:376-388 | n more sandboxes keep the pool within fibers.warm and, with the running fibers, within fibers.max if and only if n is at most the room |
| `Ledgers.Ledger.AdmitGrant` | pkg/core/ledger.go:148-156 | a refresh keeps sequence and slots; an admission continues the uid's sequence |
| `Ledgers.Ledger.RevokeGrant` | pkg/core/ledger.go:182-189 | the entry goes, its sequence stays |
| `Ledgers.Ledger.ResolveHeld` | pkg/core/ledger.go:260-358 | attach, resume, create or refuse as the decision function says, which `CloneTheorems.DecidesExactly` and `ResolvesExactly` characterise; reserving and minting only for a birth |
| `Ledgers.Ledger.Commit` | pkg/core/ledger.go:296-325 | inserts fiber and session if and only if the captured entry is still the grant's, the epoch is the fence's and nothing refuses |
| `Ledgers.Ledger.OnPark` | pkg/core/ledger.go:486-511 | the slot is freed, the session is parked at the new delta, its name and the delta it ran from are returned |
| `Ledgers.Ledger.OnGone` | pkg/core/ledger.go:527-545 | one slot is given back, by uid, and nothing of the session stays; a second call changes nothing |
| `Ledgers.Ledger.ForgetSession` | pkg/core/ledger.go:402-408 | a parked session is forgotten, a running one and every other stay |
| `Ledgers.Ledger.RestoreParked` | pkg/core/snapshot.go:73-85 | refused without the grant or over a held session, else parked under its old fence |
| `CloneInvariant.StepKeepsInv` | pkg/core/ledger.go:260-358 | every step of every caller keeps the whole invariant: sessions match fibers, gates, exits, fences, slot accounts |
| `CloneInvariant.MintedFenceIsNew` | pkg/core/ledger.go:292-295 | a minted fence was never minted before and is newer than all of its grant |
| `CloneTheorems.RunKeepsInv` | pkg/core/ledger.go:260-358 | the invariant holds in every state of every run |
| `CloneTheorems.SessionNeverRunsTwice` | pkg/core/ledger.go:191-358 | in every state of every run running named sessions and fibers with a session key correspond one to one, and a session has one fiber, or one clone building one, or neither |
| `CloneTheorems.AttachFindsTheRunningFiber` | pkg/core/ledger.go:336-344 | an attach returns the fence of the fiber its session runs as, and mints nothing |
| `CloneTheorems.DecidesExactly` | pkg/core/ledger.go:270-357 | attach if and only if the grant serves the clone and its session runs; birth if and only if it serves it, has room and, for a parked session, the checkpoint tier; which refusal otherwise |
| `CloneTheorems.ResolvesExactly` | pkg/core/ledger.go:270-357 | in every sound state: which clones a resolve lets in, what they then hold, that exactly a birth mints, and that a refusal changes nothing |
| `CloneTheorems.NobodyGetsInUnderADeadGrant` | pkg/core/ledger.go:270-279 | in every run a fence is minted and a clone attaches only under an admitted grant whose lease runs at that moment |
| `CloneTheorems.DeliveryTakesEffect` | pkg/core/ledger.go:148-156 | a delivery serves clones by its own lease and tier from then on, keeps slots and sequence of a grant it refreshes, and touches no other |
| `CloneTheorems.BuildingNeverRan` | pkg/core/ledger.go:296-325 | a fiber a clone is still building was in the ledger at no earlier moment of the run |
| `CloneTheorems.MintedFencesIncrease` | pkg/core/ledger.go:134-156 | a fence minted later is newer, across revocations, re-admissions and epoch moves |
| `CloneTheorems.BarredFibersOnlyLeave` | pkg/core/ledger.go:296-325 | after a revoke, an epoch move or a drain no step adds a fiber with an older fence |
| `CloneTheorems.YieldSweepsEveryFiber` | pkg/core/core.go:1111-1140 | revoke, then list, then see each listed fiber out: from then on no fiber minted before the revoke is ever in the ledger |
| `CloneTheorems.EpochBumpSweepsEveryFiber` | pkg/core/core.go:891-927 | the same for an epoch move: every later fiber has the new epoch |
| `CloneTheorems.DrainAdmitsNoFiber` | pkg/core/drain.go:55-96 | once the flag is set the ledger's fibers only leave |
| `CloneTheorems.NoExitIsLost` | pkg/core/core.go:1208-1235 | once an exit was reported and no clone carries the fiber, the ledger does not hold it and no clone will bring it back, then or later, and every entry's slot account is exact without it |
| `CloneTheorems.FreedExitIsNotHeld` | pkg/core/core.go:1208-1220 | an exit whose fiber the ledger knew frees it; at no later moment is the exit held or the fiber back |
| `CloneTheorems.HeldExitGoesWithItsClone` | pkg/core/core.go:407-493 | once a birth is rolled back or its commit refused, an exit reported for the fiber before is held at no later moment |
| `CloneTheorems.CapacityConserved` | pkg/core/ledger.go:283-334 | an entry counts exactly its fibers and reservations if and only if its uid had no fiber at admission; the ceiling is exceeded at most by those |
| `CloneTheorems.ReadmissionOverLiveFiberOvercommits` | pkg/core/ledger.go:535-537 | a reachable state with two fibers under fibers.max 1 |
| `Cores.Core.Clone` | pkg/core/core.go:236-462 | a draining home takes none; leaves no reservation and no gate; unless refused its grant served it when it resolved; a fiber it reports entered the ledger in its own commit under a newer fence, was recorded, and has the endpoint it returns; with a miss the clone was refused, or gave up and its fiber never enters the ledger; a fiber neither recorded nor released is committed though an error is returned; an attach returns fence and endpoint of the fiber its session was running as |
| `Cores.Core.Build` | pkg/core/core.go:377-462 | the fiber entered the ledger in this clone's own commit, or the runtime failed, the birth was rolled back or the commit was barred, and it never will |
| `Cores.Core.CommitHeld` | pkg/core/core.go:485-493 | commit and the held exit are one step: the exit is handed to this clone or stays with OnExit |
| `Cores.Core.OnExit` | pkg/core/core.go:1208-1235 | an exit frees its fiber, or is held for the clone that will commit it |
| `Cores.Core.Yield` | pkg/core/core.go:1111-1140 | when it returns no fiber of the grant minted before the call is in the ledger, and none can come back |
| `Cores.Core.BumpEpoch` | pkg/core/core.go:891-927 | when it returns every fiber has the new epoch or a later one |
| `Cores.Core.Drain` | pkg/core/drain.go:55-76 | terminates in every interleaving; each listed fiber was parked (named), shed (anonymous), gone by another's step, or runs on because the runtime failed; after an empty listing only the last and those left by an ended context remain of the grants it saw |
| `Cores.Core.DrainList` | pkg/core/drain.go:80-96 | lists every untried fiber of each grant while fibers leave around it |
| `Cores.Core.DrainOne` | pkg/core/drain.go:134-174 | a named session is parked at the delta the runtime gave, an anonymous fiber released, or the fiber was gone or runs on |
| `SessionGate.GateIsExclusive` | pkg/core/ledger.go:191-235 | no two callers are past one session's gate, and the map names exactly the sessions in use |
| `SessionGate.GatesRefineLockTable` | pkg/core/ledger.go:191-235 | the counted gates refine a plain lock table |
| `SessionGateRuns.Gates.Acquire` | pkg/core/ledger.go:191-202 | when it returns no other caller is past the session's gate |
| `SessionGateRuns.Gates.Release` | pkg/core/ledger.go:204-212 | the mutex and the reference are given back, and the gate goes with its last user |
| `RevokedGrants.Revoked.Add` | pkg/core/revoked.go:60-71 | denied until the later of the lease and now plus the ttl, never shortening an entry |
| `RevokedGrants.Revoked.Denied` | pkg/core/revoked.go:75-92 | denied if and only if an entry stands; a lapsed one goes; one that stands then covers the lease it refuses |
| `RevokedGrants.RefusedAgain` | pkg/core/revoked.go:73-92 | a refused lease, and any it outlasts, is refused again until it is over |
| `RevokedGrants.Revoked.Clear` | pkg/core/revoked.go:102-110 | removes this uid's entry only |
| `Admissions.StepKeepsInv` | pkg/core/core.go:643-690 | admissions, removals, reaper and redelivery keep the invariant in any order |
| `Admissions.RemovalBeatsAdmission` | pkg/core/core.go:836-865 | after a removal that waited, until redelivery, no unexpired lease its denial covers is admitted |
| `Admissions.RemovedLeaseStaysOut` | pkg/core/core.go:836-865 | the lease the grant was admitted under when the removal began is covered by its denial however long it runs, and stays out until it is over |
| `Admissions.RemovalBeatsTokens` | pkg/grant/jwt.go:190-207 | so for every verified token issued before it whose lease is in whole seconds |
| `Admissions.SubSecondLeaseSlipsIn` | pkg/grant/jwt.go:190-192 | a run in which a verified token's lease outlives the denial and is admitted |
| `Admissions.GetsInExactly` | pkg/core/revoked.go:60-98 | in any state a lease can get in before redelivery if and only if it is unexpired and admitted, past its deny check, or outlasts the denial that stands |
| `Admissions.RefusedStaysRefused` | pkg/core/revoked.go:73-92 | a lease refused by a denial, and any it outlasts, can get in before redelivery if and only if it is admitted already and not over |
| `Admissions.RefusedNeverAdmitted` | pkg/core/revoked.go:73-92 | in every run after the refusal, until redelivery, it is never admitted unexpired |
| `Admissions.RemovalShuts` | pkg/core/core.go:836-865 | a finished removal shuts out every lease its denial covers, and the denial only grows until it lapses |
| `AdmissionRuns.Home.Remove` | pkg/core/core.go:836-865 | deny, wait for the admission in the slot, yield: then nothing covered is admitted unexpired, whatever the others do; covered are the ttl from the call on and the lease admitted when it began |
| `AdmissionRuns.Home.Admit` | pkg/core/core.go:624-766 | barred, refused, shared with the admission it waited for under a lease at least as long, or admitted in its turn; a success rests on the lease the ledger then holds, never unexpired on one a finished removal denies; a barred lease cannot get in before redelivery |
| `AuditSpool.ScanSpool` | pkg/core/audit.go:165-192 | the loop finds the last chained record and whether the end is torn |
| `AuditSpool.VerifySpool` | pkg/core/audit.go:397-487 | the loop accepts exactly the files the verification function accepts, with the report that `AuditReport.ReportIsTrue` reads off the chain |
| `AuditReport.ReportIsTrue` | pkg/core/audit.go:455-477 | for every accepted file: records, gaps and checkpoints of the chain are counted, the last signed number and the unsigned rest are those after its last checkpoint, and the unchained lines are those before it |
| `AuditReport.CheckpointsComeInTime` | pkg/core/audit.go:209-211 | in every run, after an append that wrote its record and its checkpoint if due, fewer than `every` records of this opening are unsigned |
| `AuditReport.ClosedIsSigned` | pkg/core/audit.go:336-347 | in every run a close whose checkpoint write succeeds leaves no record of this opening unsigned |
| `AuditWriter.Spool.Append` | pkg/core/audit.go:198-221 | gap, record, checkpoint: the new file and counters are the writer function's for every pattern of failures |
| `AuditWriter.Spool.Write` | pkg/core/audit.go:274-307 | the record is numbered, chained and written as given; a failed write loses its number and remembers the gap |
| `AuditDurability.AppendCounts` | pkg/core/audit.go:198-221 | an append whose record was written adds a line with what the caller gave, but for number and previous hash, numbered above all before |
| `AuditWriter.Spool.Close` | pkg/core/audit.go:336-348 | gap and last checkpoint, then closed; returns the mark that is synced before the file closes |
| `AuditWriter.OpenSpool` | pkg/core/audit.go:129-160 | continues the chain where the scan found its end, a torn line followed by a gap; no spool if and only if that gap failed |
| `AuditSync.Append` | pkg/core/audit.go:198-221 | among other writers: a Sync append is accepted only when its record is written and on disk, it is unsynced only after an fsync failed, and the spool is as this append and then the others left it |
| `AuditSync.Close` | pkg/core/audit.go:336-358 | among callers still waiting for an fsync: an accepted close leaves every record of the opening on disk, otherwise the fsync failure or the earlier close is reported, and no record follows |
| `AuditAgreement.AppendVerifiesExactly` | pkg/core/audit.go:198-221 | after an append the verifier accepts the file if and only if it did not write its record behind its own failed gap on a spool with a chain |
| `AuditAgreement.SkippedGapIsCaught` | pkg/core/audit.go:310-320 | behind a gap skipped before the chain began, an append verifies if and only if it writes nothing |
| `AuditAgreement.CloseAgrees` | pkg/core/audit.go:336-347 | closing keeps writer and verifier in agreement unless its gap failed and it went on |
| `AuditAgreement.CloseVerifiesExactly` | pkg/core/audit.go:336-347 | after a close the verifier accepts the file if and only if no checkpoint was written behind its own failed gap |
| `AuditAgreement.OpenAgrees` | pkg/core/audit.go:129-160 | reopening any accepted file, torn or not, agrees with the verifier |
| `AuditAgreement.CutVerifies` | pkg/core/audit.go:397-487 | an accepted file cut by a crash, with or without a fragment, is accepted |
| `AuditAgreement.SpoolAlwaysVerifies` | pkg/core/audit.go:129-221 | in every run of opens, appends, closes and crashes under the two conditions the file verifies at every moment |
| `AuditAgreement.IgnoredGapFailureIsRefused` | pkg/core/audit.go:310-320 | three appends after which the verifier refuses the file |
| `AuditAgreement.WholeRecordIsRefused` | pkg/core/audit.go:274-307 | a whole record behind a reported failure breaks the chain at the next append |
| `AuditTamper.TamperEvident` | pkg/core/audit.go:361-369 | accepted files that share a record hash share the whole chain up to it |
| `AuditTamper.CheckpointPayloadInjective` | pkg/core/audit.go:371-373 | a signature over the payload is one over number and hash |
| `AuditTamper.CheckpointFixesPrefix` | pkg/core/audit.go:361-373 | when the home signed only records of the true chain, an accepted file with its signatures is the true chain up to each checkpoint |
| `AuditTamper.CheckpointFixesWhatWasWritten` | pkg/core/audit.go:323-334 | on the writer's own scheme, an accepted file with a checkpoint agrees up to it with a file the writer had on disk in some state of its run |
| `AuditTamper.OwnFileIsUnforged` | pkg/core/audit.go:323-334 | every file of every run of the writer meets that theorem's hypothesis when only its own signatures verify |
| `GroupCommit.GroupCommitIsSound` | pkg/core/audit.go:198-260 | nil means a successful fsync began after the write; one fsync at a time; nobody sleeps without a leader; at most two waits |
| `GroupCommitRuns.Syncer.SyncThrough` | pkg/core/audit.go:231-260 | the loop turns at most three times in any interleaving; nil means a successful fsync began after the n-th write, an error that one failed |
| `GroupCommit.NothingAfterPoison` | pkg/core/audit.go:231-260 | after the first failed fsync none starts and the synced mark stays |
| `AuditDurability.AcknowledgedRecordSurvives` | pkg/core/audit.go:198-260 | after a Sync append returned nil, the verified chain has at every later moment, whatever crashes and reopenings follow, a record with the contents the caller gave, numbered above every record there before |
| `Persists.PersistIsSound` | pkg/core/snapshot.go:103-113 | a nil result means the file holds a capture taken after the call began |
| `Persists.ResultIsItsOwn` | pkg/core/snapshot.go:103-113 | any result is that of a write whose capture came after the call began |
| `Persists.FileNeverGoesBack` | pkg/core/snapshot.go:87-113 | the file never returns to an older capture |
| `Persists.Store.Persist` | pkg/core/snapshot.go:103-113 | one call among others: ticket, mutex, shared or own write |
| `Reconciling.Boot.ReconcileGrants` | pkg/core/snapshot.go:203-237 | a grant of the file is admitted if and only if its lease runs, its token verifies for its uid and the admission succeeds, and then with what the token carries; held if and only if the verifier could not decide; every admission rewrites the file, which then names no session |
| `Reconciling.Boot.ReconcileSessions` | pkg/core/snapshot.go:241-260 | a session of the file is restored, parked as it was, if and only if its delta is there and its grant admitted, and held if and only if its delta is there and its grant held |
| `Reconciling.Boot.Reconcile` | pkg/core/snapshot.go:199-319 | the next snapshot names exactly the restored and held sessions, whose deltas survive unless a running session named them; with an unreadable file no other delta goes either; the file on return names every kept session if and only if the fibers were listed, no grant was admitted, or none is kept |
| `Reconciling.Boot.RestoreHeld` | pkg/core/snapshot.go:366-380 | at boot, where nothing else runs: the held sessions go to the ledger and the held entry goes |
| `Reconciling.Boot.NextSnapshot` | pkg/core/snapshot.go:385-418 | at boot: the ledger's grants and sessions, then held grants not admitted since and their sessions the ledger does not know |
| `Reconciling.NextIsKept` | pkg/core/snapshot.go:385-418 | that is the restored and the held sessions and no other |
| `ReconcileTheorems.TallyAddsUp` | pkg/core/snapshot.go:241-260 | restored, held and dropped add up to the parked sessions with a delta |
| `ReconcileTheorems.TallyCounts` | pkg/core/snapshot.go:241-260 | the restored count is that of the sessions in the ledger, the held count that of the sessions held |
| `ReconcileTheorems.GrantTallyCounts` | pkg/core/snapshot.go:203-237 | each count is that of the grants its meaning names |
| `ReconcileTheorems.BootAdmitsBySignature` | pkg/core/snapshot.go:196-237 | boot as a whole admits what tokens carry, and each session follows its grant |
| `ReconcileTheorems.FileGrantsNothing` | pkg/core/snapshot.go:196-198 | two files that agree on uids, leases and tokens boot to the same admitted grants, whatever else they say |
| `ReconcileTheorems.KeptIsOnDisk` | pkg/core/snapshot.go:241-248 | when the runtime can say what is on disk, boot keeps no session whose delta is gone |
| `ReconcileTheorems.NextBootAccepts` | pkg/core/snapshot.go:385-418 | from boot on, after any steps of the protocol and any held grants let go, also between its two captures, every snapshot written has distinct uids and session keys, as the next boot needs |
| `ReconcileTheorems.FileNamesExactly` | pkg/core/snapshot.go:385-418 | a snapshot names every session of its ledger capture; another held then, if and only if its grant was not admitted and is not let go before the second capture |
| `ReconcileTheorems.FileNamesRunningFibers` | pkg/core/snapshot.go:40-56 | a running session is named with the fiber it runs as, a parked one with none |
| `ReconcileTheorems.FileNamesGrantsExactly` | pkg/core/snapshot.go:385-418 | and every admitted grant; one only held, if and only if it is not let go between the captures |
| `ReconcileTheorems.HeldComesBack` | pkg/core/snapshot.go:199-418 | a session held at one boot is in the file with its grant, and the next boot restores it or holds it again as its token is then judged |
| `ReconcileTheorems.AdmissionBetweenCapturesForgets` | pkg/core/snapshot.go:385-418 | an admission between the two captures after which the file names neither the grant nor its session, and the next file names both |
| `ReconcileTheorems.BootIsSound` | pkg/core/snapshot.go:199-319 | the ledger boot leaves satisfies the protocol's invariant, so its theorems hold from there |
| `ReconcileTheorems.StepKeepsKeys` | pkg/core/ledger.go:317-325 | every step files sessions under their own key |
| `ReconcileTheorems.HeldSurviveAdmission` | pkg/core/snapshot.go:366-380 | while nobody else runs, every held session of an admitted grant is in the ledger after the loop, and none it had is overwritten |
| `HeldRuns.Keeper.RestoreHeld` | pkg/core/snapshot.go:366-380 | among others: the held entry goes, and each of its sessions has its own step between call and return at which the ledger takes it if and only if its grant is admitted and the session unknown |
| `HeldRuns.Keeper.Snapshot` | pkg/core/snapshot.go:385-418 | among others: the ledger as it was at the first capture, with the held grants as they are at the second |
| `RestoredSessions.DeltaStaysExactly` | pkg/core/ledger.go:296-325 | in every state of a run that does not end the session it carries its delta if and only if no clone that was building over it at the start has committed |
| `RestoredSessions.DeltaIsSafeExactly` | pkg/core/ledger.go:296-325 | some run takes the delta from a session without ending it if and only if a clone is building over it now and nothing bars its commit |
| `RestoredSessions.RestoreTakes` | pkg/core/snapshot.go:73-85 | a restore leaves the session with its delta if and only if the ledger had it so, or did not know it and has the grant |
| `RestoredSessions.RestoredIsSafeExactly` | pkg/core/core.go:758-759 | a session just restored can lose its delta, other than by ending, if and only if a clone that started without it may still commit |
| `RestoredSessions.FreshCloneOverwritesRestored` | pkg/core/ledger.go:317-325 | a reachable state in which a restored session is lost to a clone in flight |
| `ReconcileTheorems.HeldIsNamedExactly` | pkg/core/snapshot.go:402-416 | a held session is named next time if and only if its grant was not admitted as well |
| `ReconcileTheorems.DuplicateGrantLosesItsSession` | pkg/core/snapshot.go:402-416 | a snapshot with a repeated grant that loses a parked session |
| `ReconcileTheorems.BootThatCannotListForgets` | pkg/core/core.go:758-767 | an admission at boot that leaves a file naming no session although one is to be restored |
| `ReadyGates.OnePublishInFlight` | pkg/home/readygate.go:82-115 | in every run at most one publish is in flight |
| `ReadyGates.PublishesInOrder` | pkg/home/readygate.go:82-115 | each publish sends the warm set as read after the one before it came back |
| `ReadyGates.GateConverges` | pkg/home/readygate.go:41-70 | with no call active and the last publish successful, gate and control plane both hold "some template is warm", even if earlier publishes failed after landing |
| `ReadyGates.WarmIsLastMarked` | pkg/home/readygate.go:41-54 | the warm set of every run is the templates last marked warm |
| `ReadyGates.RepublishRepairsExactly` | pkg/home/readygate.go:62-70 | a republish that goes through leaves gate and control plane agreed if and only if it had something to send or they agreed already |
| `ReadyGates.NobodySendsWhileSettled` | pkg/home/readygate.go:82-96 | while the gate believes the bit is right, no run of republishes changes what the control plane holds |
| `ReadyGates.LandedFailureSticks` | pkg/home/readygate.go:98-113 | a run after which every call has returned, the gate is settled and the control plane holds the opposite bit |
| `ReadyGates.ReadyGate.Look` | pkg/home/readygate.go:84-96 | a caller publishes the current warm set if and only if nobody does and the bit is unknown or wrong |
| `ReadyGates.ReadyGate.Settle` | pkg/home/readygate.go:100-113 | a failure keeps the published bit, a success records it; changed compares outcomes |
| `ReadyGates.ReadyGate.Flush` | pkg/home/readygate.go:82-115 | the publishing loop ends in the state, error and changed flag the loop function gives for every list of publish outcomes |
| `ReadyGates.FlushSettles` | pkg/home/readygate.go:82-115 | a caller that published returns nil only with the bit settled, whatever was marked meanwhile, and an error only as the last outcome |
| `ReadyGates.FlushReportsChange` | pkg/home/readygate.go:98-113 | what a call reports as changed, exactly: with nil, a publish after a failure; with an error, a message other than the one on record |
| `PoolRefill.Pool.RefillPass` | pkg/core/pool.go:141-207 | at most one fill, none while one runs or the home drains, for the first grant with room in turn; the retry time is the earliest held one before it |
| `PoolRefill.PassExactly` | pkg/core/pool.go:141-207 | turns start above the last uid filled; the first grant with room is filled, if any has; the retry time is the earliest that a grant passed over before it is held until |
| `PoolRefill.TurnComesNearer` | pkg/core/pool.go:158-165 | a fill that passes a grant with room over brings its turn strictly nearer |
| `PoolRefill.NobodyStarves` | pkg/core/pool.go:141-207 | a grant that keeps having room is filled within as many fills as there are grants |
| `Seal.ChunkNonceInjective` | pkg/artifact/seal.go:252-259 | no two chunks share a nonce, nor a chunk with itself sealed as last |
| `Seal.SealStream` | pkg/artifact/seal.go:264-321 | the chunk loop writes the sealed file for every length |
| `Seal.OpenStream` | pkg/artifact/seal.go:349-406 | the chunk loop opens exactly what the opening function opens |
| `Seal.HeaderReadsBack` | pkg/artifact/seal.go:323-341 | a written header is read back if it fits 65536 bytes and refused otherwise |
| `Seal.SealRoundTrip` | pkg/artifact/seal.go:264-406 | opening inverts sealing for every plaintext, under every cipher that opens what it sealed, if and only if the header fits |
| `Seal.OnlyTheSealedFileOpens` | pkg/artifact/seal.go:349-406 | whatever files a home has sealed, under ideal ciphers a stream opens to a plaintext if and only if it is one of those files with a header that fits, under the key that header leads to, and that is its plaintext |
| `Seal.IdealCipherExists` | pkg/artifact/seal.go:264-406 | for any number of headers and plaintexts some ciphers meet the hypothesis, also one shared by all |
| `ServerNames.ReadServerName` | pkg/handoff/sni.go:21-97 | the nested loops compute the reading function, on every input |
| `ServerNames.Parser.Vec` | pkg/handoff/sni.go:120-135 | takes a length-prefixed vector off the front, or fails |
| `ServerNames.AnswerIsFinal` | pkg/handoff/sni.go:21-97 | an answer other than ErrShort is not changed by any further bytes |
| `ServerNames.ShortExactlyWhenOpen` | pkg/handoff/sni.go:21-40 | ErrShort is given if and only if further bytes can change the answer |
| `ServerNames.PeekServerName` | pkg/handoff/router.go:245-284 | the peeking loop returns the answer of the whole stream, reads at most MaxHello, and answers at the first peek that decides it |
| `ServerNameGrammar.FirstHostNameIsRead` | pkg/handoff/sni.go:53-97 | every well-formed single-record ClientHello is answered with its first host name in its first server_name extension |
| `ServerNameGrammar.NameExactly` | pkg/handoff/sni.go:21-97 | a name is returned if and only if the bytes are such a ClientHello |
| `ServerNameGrammar.NoExtensionNoAnswer` | pkg/handoff/sni.go:59-97 | without a server_name extension there is no name |
| `ServerNameGrammar.NoHostNameNoAnswer` | pkg/handoff/sni.go:76-94 | nor when the first one names no host |
| `ServerNameGrammar.NoNameExactly` | pkg/handoff/sni.go:53-97 | there is no name if and only if the bytes are a ClientHello without extensions, without a server_name, or whose first one names no host |
| `ServerNameGrammar.NotTLSExactly` | pkg/handoff/sni.go:21-46 | not TLS if and only if the bytes do not start like a handshake record, or are a record that does not start a ClientHello |
| `Records.BuildRecord` | pkg/backend/record.go:219-227 | the loop frames kind and fields |
| `Records.ParseInvertsRecord` | pkg/backend/record.go:219-241 | parsing gives kind and fields back if and only if there is a field and none holds NUL |
| `Records.RecordInvertsParse` | pkg/backend/record.go:231-241 | every packet that parses is the record of what it parsed to |
| `Records.ReadIncarnation` | pkg/backend/record.go:140-190 | the field loops compute the parsing function, on every packet |
| `Records.IncarnationRoundTrip` | pkg/backend/record.go:88-126 | a framed incarnation parses to itself if and only if no identity field is "-", and what happens otherwise |
| `Records.PacketRoundTrip` | pkg/backend/record.go:140-190 | a packet that parses is rebuilt byte for byte if and only if its hex is lower case and it is not over-long |

## Left out

- The runtime, its backends, CRIU, cgroups and the registry: their answers are nondeterministic (a handle or an error, an exit at any time, a delta or none).
- Real cryptography: ciphers, signatures and hashes are function parameters; exactness of sealing assumes an ideal cipher, tamper evidence an injective hash, checkpoints that the signatures in the file were made by the home.
- JSON, files and fsync: a spool is a list of lines, a snapshot file an atomic value, a delta store a set.
- `EpochStore` and its file; epoch and sequence numbers are unbounded naturals, so a wrap at 64 bits is not modelled.
- The token, audience, caller and tenant checks Clone makes before it resolves; rate limiting, pressure, device channels and template warm-up are nondeterministic refusals.
- Ledger fields no modelled decision reads (`wUsed`, statuses, `SetPooled`), `DrainReport` counts, pool backoff times, orphan killing at boot, audit records written by the core.
- Order of sorted listings other than the refill turn: listings are sets; named fibers before anonymous ones in a drain is not stated.
- Grant entries are compared by pointer in the source and by index into a growing sequence here; one hold of `pendingMu` is one step.
- The remote claim of a session (`locate`) beyond the step that restores it; `SealDir`, `OpenDir` and the key derivations around the sealed file.
- gRPC, HTTP, TLS reload, flags, mounts, health, the Watch stream, tools, SDK and generated code: easy members or plumbing.
- Admissions.RemovalBeatsTokens: for leases in whole seconds, because the property fails for others by part of a second (`SubSecondLeaseSlipsIn`); `RemovalBeatsAdmission` covers every lease the denial covers.
- Admissions.StepKeepsInv: follows one grant uid; slots, denials and ledger entries of other uids are separate.
- Seal.OnlyTheSealedFileOpens: for plaintexts under 2^64 bytes, the range of the chunk counter and of file sizes; headers of distinct files differ, as their salts do.
- ReconcileTheorems.HeldSurviveAdmission: for a restore loop that nobody interrupts, because with clones in flight it fails; `RestoredSessions.RestoredIsSafeExactly` says exactly when.
- Reconciling.Boot.RestoreHeld: the same loop without interruption, as boot runs it; `HeldRuns.Keeper.RestoreHeld` is the one among others.
- Reconciling.Boot.NextSnapshot: the two captures without interruption; `HeldRuns.Keeper.Snapshot` is the one among others.
- Reconciling.Boot.Reconcile: for snapshots with distinct uids and session keys, which are the ones fiberd writes (`NextBootAccepts`); `DuplicateGrantLosesItsSession` shows the need. The writes of the snapshot file are taken to succeed.
- ReadyGates.ReadyGate.Flush: takes how each publish goes as a list, where the source asks the control plane; a caller that loses its turn between two publishes is covered by the machine's theorems.
- Records: Go strings are modelled as strings of bytes, and a nil payload is the empty one.
