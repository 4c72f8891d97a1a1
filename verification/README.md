# Verification of the Ternal control plane

Ternal is an SSH control plane: server nodes share a replicated SQL database and an external
trust anchor, devices run an agent, and users reach devices through short-lived grants. This
project models the parts whose correctness depends on more than one function and proves what
they promise in every run, over any number of nodes, calls and failures.

Check everything with `dafny verify dfyconfig.toml`.

## What is modelled

**The fencing protocol** (`TrustState` to `TrustAdmission`). The anchor is a compare-and-swap
record with a resource version; the database carries the same `(epoch, token)` pair. Any number
of processes open the store (startup settlement, own fence, peer's fence, recovery of a pending
fence, catch-up), write (read, verify, reserve, execute with a guarded tail, finalize or abort),
read (between two looks at the anchor), fail, time out and crash at every point. Each process has the
binding it was deployed with, so runs go on when a recovery moves the anchor to another one.
Compare-and-swap requests and SQL requests are messages that stay in flight, so each may be lost, answered into the
void, or applied late. The database may be restored to any earlier version. `TrustInvariant` is
the inductive invariant, `TrustEnvironment` and `TrustProcesses` show that every step keeps it,
`TrustTheorems` holds what is true while restores lose nothing, `TrustReads` what survives any of
them, `TrustProgress` and `TrustJoins` that undisturbed work completes, `TrustWrites` what becomes of a
rejected write and what each comparison of the row decides, `TrustAdmission` that every anchor write of
every run passes the admission policy.

Assumptions about the parts outside the repository: every anchor write changes the resource
version and no version comes back; a minted UUID was never minted before; a request ID gets at
most one outcome, and the outcome outlives a restore; database reads are linearizable; a restore
goes back to a version the database had, and forgets the later ones; epochs stay below the int64
maximum; recovery updates are the two kinds the admission policy admits.

**The anchor's text** (`Decimal`, `Base64`, `AnchorCodec`) and **the admission policy**
(`Admission`, `AnchorUpdates`, `KubernetesAnchor`). The record's eight-key and twelve-key ConfigMap
text, its projection to the recovery service's record, the rendered CEL contract and transition
predicates, and the Kubernetes compare-and-swap as a class. JSON is an abstract encoding: what is
printed is read back, structs print as objects, and a reader may accept other spellings
(`JsonWitness` has one that meets these laws). Base64 is
written out (section 4 of RFC 4648, with the line breaks Go's decoder skips), as are Go's decimal
parsers and the UUID text form (section 4 of RFC 9562).

**The cancellable reader/writer lock** (`CtxRWMutex`). The fields as a class whose methods are the
critical sections, and a machine of any number of threads that block on the channel they saw.

**The access and enrollment tables** (`AccessTables` to `AccessStore`), **the authorized-keys
snapshots** (`AccessSnapshots`) and **the agent** (`Agent`). Each transaction is a function on the
tables; `AccessStore.Store` runs the statements in order and is proved equal to it. `AccessEffects`
and `AccessRows` say column by column what every transaction leaves behind and what that means for the
calls that come after: whose keys a grant brings where, what an acknowledgement installs, who may beat
after enrolling, what still pays. In runs, a call
that reads before its transaction contributes only the transaction, with whatever its reads may
have returned, so other nodes act in between. The hash of a grant list is collision-free; the
library functions the agent calls are parameters.

**Wildcard matching and proxy commands** (`Wildcard`, `ProxyCommand`), and **session revocation**
(`Sessions`), where nodes read their own clocks and every reading and every statement is a step of
its own. The address check of a proxy command is a parameter that accepts only words without quotes.

## Findings

- After a rollback of the database a fence can still be published, once: exactly when a reservation
  for the anchor's current version is in flight, or a write that had compared the row at that version
  is about to reserve and has an epoch and an identity left (`RollbackFencesIff`,
  `OneFenceAfterRollback`). Nothing it reserves can commit. Likewise rows are still returned exactly
  when a read had compared them at that version (`RollbackReadsIff`). A pending fence closes both
  (`PendingFenceIsClosed`); `RollbackUnderWrite` and `RollbackUnderRead` are runs in which they happen.
- A process can settle on an unmigrated database only after a restore took a migration back
  (`SettledImpliesMigrated`); the recovery of a rejected fence then does it (`UnmigratedSettles`).
- A database migrated before its anchor was created never settles, restores or not
  (`MigratedFirstNeverSettles`); every other initial state can (`OpenSettles`).
- Marking a host revoked is undone by its own device's next heartbeat; only revoking the device is
  final (`StatusAloneIsNotFinal`, `RevocationIsPermanent`).
- An agent without a record that is answered generation 0 records a state its own reader refuses for
  ever (`StuckIffGenerationZero`, `StuckForever`; `GenerationZeroSticks` is one). The server never
  issues generation 0.
- The base64 text of an accepted anchor need not be canonical (`EvidenceSpellingIsFree`); the record
  prints back exactly when it is (`PrintsBackIff`).
- The 600-second retention of revoked sessions is exactly the clock skew that is safe
  (`RevokedStaysOut`, `SkewBoundIsNeeded`).
- The shell reads a quoted value back exactly if it holds one of the characters that cause quoting or no
  character of the shell's own (`ShellReadsQuoted`); addresses and relay URLs always do.
- Quoting a value that has a double quote and no single quote cannot be undone
  (`UnquoteInvertsQuote`).

## Model

| member | source | states |
|---|---|---|
| `TrustTheorems.FenceInvariant` | internal/store/rhiza_sql.go:223-334 | In every run whose restores, if any, lose no fenced write, whatever crashes, is lost or lands late: the row is the anchored pair or, while a fence is pending, the pending pair; with no fence pending no fenced request can commit, and otherwise only the pending one |
| `TrustTheorems.RestoreBreaksFenceIff` | internal/store/rhiza_sql.go:336-353 | A restore before which none lost a fenced write breaks that exactly if it loses one |
| `TrustTheorems.SettledImpliesMigrated` | internal/store/store.go:374-703 | In every run in which no restore has taken a migration back: a process that published its anchor, and every call on one, stands on a migrated database, also when it settled through the recovery of a pending fence, which never reads the marker |
| `TrustJoins.UnmigratedSettles` | internal/store/store.go:680-703 | From every greenfield state that can settle, a run whose one restore takes the migration back and in which a process then settles on the unmigrated database |
| `TrustTheorems.AcknowledgedStays` | internal/store/rhiza_sql.go:290-319 | In every run whose restores, if any, lose no fenced write, an acknowledged write is in the database from then on |
| `TrustTheorems.KeepsUpFences` | internal/store/store.go:656-703 | Where the database holds every finalized write, the pending fence's outcome is committed exactly when the row shows its pair |
| `TrustTheorems.StepKeepsUp` | internal/store/rhiza_sql.go:223-334 | Every step, a restore that loses no fenced write included, keeps the database level with the anchor |
| `TrustTheorems.StepMarked` | internal/store/store.go:374-457 | Every step, a restore to a migrated version included, keeps the marker under whoever relies on it |
| `TrustRuns.StepKeeps` | internal/store/rhiza_sql.go:168-353 | Every step of every process, the anchor and the database keeps the protocol invariant, restores included |
| `TrustRuns.Reachable` | internal/store/rhiza_sql.go:168-353 | Every state of every run from a greenfield deployment satisfies it |
| `TrustEnvironment.CommitIsPending` | internal/store/rhiza_sql.go:278-287 | A guarded tail that still matches the row is the one the anchor has pending, over the anchored pair |
| `TrustEnvironment.CasLands` | internal/store/trust_anchor.go:99-108 | A compare-and-swap that lands is a reservation, the finalization of a committed fence or the clearing of a rejected one, and keeps the invariant |
| `TrustEnvironment.RestoreKeeps` | internal/store/rhiza_sql.go:336-353 | A restore to any earlier version keeps the restore-proof invariant |
| `TrustProcesses.RowProvesCommit` | internal/store/store.go:388-394 | A row that shows a minted token proves that its request committed |
| `TrustProcesses.MoveKeeps` | internal/store/store.go:374-703 | Every move of a settling, writing or reading process keeps the invariant and sends only messages that may land |
| `TrustReads.ReadsAreCurrent` | internal/store/rhiza_sql.go:168-205 | A read that returns rows saw exactly the writes finalized at both looks at the anchor, every write acknowledged before it began, and no commit in between, restores at any point included |
| `TrustReads.StaleIffBehind` | internal/store/rhiza_sql.go:336-353 | The row differs from every pair the anchor stands for exactly when a finalized write is missing |
| `TrustReads.RollbackRejected` | internal/store/rhiza_sql.go:252-290 | From a rolled-back state on, in every continuation: the row stays stale, nothing commits, rows come only from reads that were live at the rollback, and a fence only from a message that was live then or that a write live then sent |
| `TrustReads.RollbackFencesIff` | internal/store/rhiza_sql.go:252-286 | A continuation publishes a fence exactly if a reservation for the standing version is in flight or a write that compared the row at that version can still reserve |
| `TrustReads.OneFenceAfterRollback` | internal/store/rhiza_sql.go:282-286 | At most one fence is published after a rollback |
| `TrustReads.RollbackReadsIff` | internal/store/rhiza_sql.go:190-204 | A continuation returns rows exactly if a read compared them at the standing version and is about to look again |
| `TrustReads.PendingFenceIsClosed` | internal/store/rhiza_sql.go:249-251 | With a fence pending no other fence can be published and no read can return rows |
| `TrustReads.ReservationMayStillLand` | internal/store/rhiza_sql.go:278-286 | Every such write, with an epoch and an identity left, can send its reservation and have it land |
| `TrustReads.ReadMayStillAnswer` | internal/store/rhiza_sql.go:197-204 | Every such read returns its rows |
| `TrustProgress.RollbackUnderWrite` | internal/store/rhiza_sql.go:252-286 | A run from every greenfield state that can settle in which a fence is published over the rolled-back database |
| `TrustProgress.RollbackUnderRead` | internal/store/rhiza_sql.go:190-204 | One in which a read returns rows after the rollback |
| `TrustReads.BootstrapStaysSpent` | internal/store/store.go:656-678 | Bootstrap never returns to true, and finalized fences are never undone |
| `TrustReads.BootstrapSpentOnce` | internal/store/store.go:596-635 | Over any run at most one epoch was advanced by a fence that startup reserved; bootstrap stands exactly until the first finalization |
| `TrustReads.OwnFenceIffOwnCas` | internal/store/store.go:379-387 | A settling process takes the pending fence for its own exactly when its own compare-and-swap published it, answered or not |
| `TrustProgress.WriteCompletes` | internal/store/rhiza_sql.go:223-334 | From any quiet state an undisturbed write whose request commits is finalized and acknowledged at the next epoch, its caller returns, and the next write can begin |
| `TrustWrites.RejectedWriteClears` | internal/store/rhiza_sql.go:318-332 | From any quiet state an undisturbed write whose request is rejected takes its fence back: record, row, log, finalized history and acknowledgements are as before, the caller is gone, and the state is quiet again |
| `TrustWrites.ClearingWasCompared` | internal/store/rhiza_sql.go:322-331 | In every run a writer sends a clearing compare-and-swap only after it found the row at the pair it had reserved over |
| `TrustWrites.ComparisonDecides` | internal/store/rhiza_sql.go:336-353 | Every comparison of the row, in writes, reads and settlement, goes on exactly if the row is the pair compared, and otherwise sends and answers nothing |
| `TrustProgress.ReadAnswers` | internal/store/rhiza_sql.go:168-205 | From any quiet state an undisturbed read returns the database's content |
| `TrustProgress.OpenSettles` | internal/store/store.go:374-678 | From any greenfield state whose database is not migrated yet an Open with the anchor's binding settles at epoch 1 with the bootstrap spent |
| `TrustJoins.LaterOpenSettles` | internal/store/store.go:374-425 | In every run whose restores lose no fenced write, once the bootstrap is spent and unless a fence with an unknown outcome is pending, an undisturbed Open with the anchor's binding settles, by catch-up, convergence or recovery |
| `TrustJoins.JoinableSettles` | internal/store/store.go:374-703 | So does one from every reachable state whose row and pending outcome fit the anchor, whatever was restored before |
| `TrustJoins.OwnerResumes` | internal/store/store.go:379-387 | An Open that finds its own reservation pending, after a lost answer or a failed attempt, settles with that fence finalized |
| `TrustJoins.OwnerBegins` | internal/store/store.go:596-635 | While the bootstrap stands over an unmigrated database an Open settles under the identity it proposed before, if there is one |
| `TrustJoins.CommittedRecovers` | internal/store/store.go:680-703 | A peer's fence whose committed outcome was learned is finalized when the row shows it |
| `TrustProgress.MigratedFirstNeverSettles` | internal/store/store.go:401-425 | From a greenfield state whose database is already migrated no process ever settles, in any run |
| `TrustAdmission.RunsAreAdmitted` | deploy/security/render_trustguard.py:363-415 | Every anchor write of every run passes the rendered policy from the text it found, a recovery update exactly when the policy names a recovery account; every other step leaves the text alone |
| `Admission.AdmittedStep` | deploy/security/render_trustguard.py:374-415 | One admitted update: epoch and generation move by at most one, the binding only with the generation, twelve keys never shrink, a reservation and a recovery never meet |
| `Admission.AdmittedRunsAreMonotone` | deploy/security/render_trustguard.py:369-415 | Over any admitted history: epoch and generation never decrease, an epoch names one token, a generation one binding, bootstrap never comes back, no reservation beside a recovery transition |
| `AnchorUpdates.ApplicationStepAdmitted` | internal/store/rhiza_sql.go:282-331 | Reserve, finalize and abort are admitted over any accepted spelling of the record they are based on |
| `AnchorUpdates.MigrationAdmitted` | internal/store/trust_anchor_kubernetes.go:127-141 | So is the format migration of an accepted eight-key record |
| `AnchorUpdates.DirectWriteDenied` | internal/store/trust_anchor_kubernetes.go:127-142 | Writing the caller's record over eight keys in one request is denied, so the separate migrating write is needed |
| `AnchorUpdates.RecoveryStepAdmitted` | deploy/security/render_trustguard.py:396-410 | Freezing and committing a recovery are admitted to the recovery account and to nobody else |
| `AnchorUpdates.PrintedContract` | deploy/security/render_trustguard.py:363-374 | The text of every structurally valid record meets the contract |
| `AnchorUpdates.AdmittedExactly` | deploy/security/render_trustguard.py:374-415 | The policy admits a printed record over an accepted text exactly as the unchanged text, the format migration, one of the application's three steps, or, from the recovery account and with the evidence untouched, one of recovery's two |
| `AnchorUpdates.LegacyUpdatesExactly` | deploy/security/render_trustguard.py:369-415 | Over eight keys, eight keys are admitted exactly as the unchanged text or an application step under the rendered binding |
| `AnchorUpdates.CreatedExactly` | deploy/security/render_trustguard.py:363-373 | A record may be created exactly at epoch 0 with the bootstrap and no reservation; in eight keys, only under the rendered binding |
| `KubernetesAnchor.ConfigMap.Cas` | internal/store/trust_anchor_kubernetes.go:114-143 | Succeeds only over the version the caller decided on with nobody in between, never fails alone on an application step, and a failure leaves at most the format migration behind |
| `KubernetesAnchor.ConfigMap.Put` | internal/store/trust_anchor_kubernetes.go:145-171 | Writes the record exactly when version and policy agree |
| `Decimal.ParseEpochExact` | internal/store/trust_anchor.go:351-357 | An epoch is read exactly from the text it prints as, within int64 |
| `Decimal.ParseGenerationExact` | internal/store/trust_anchor.go:343-349 | A generation is read exactly from the text it prints as, within uint64 |
| `Decimal.FormatNatExact` | internal/store/trust_anchor.go:343-357 | The printed text is the one digit string of that value without leading zeros |
| `Base64.DecodeEncode` | internal/store/trust_anchor.go:278-290 | Decoding inverts encoding for every byte string |
| `AnchorCodec.ShapeExact` | internal/store/trust_anchor.go:269-276 | An accepted shape is exactly the eight or the twelve known keys |
| `AnchorCodec.ParseInvertsPrint` | internal/store/trust_anchor.go:278-341 | Parsing inverts printing for every structurally valid record |
| `AnchorCodec.ParseInvertsFlatPrint` | internal/store/trust_anchor.go:292-316 | The eight-key text carries the application state and no recovery metadata |
| `AnchorCodec.PrintAfterParse` | internal/store/trust_anchor.go:292-341 | An accepted twelve-key record prints back key by key, except that its evidence agrees in its bytes only |
| `AnchorCodec.PrintsBackIff` | internal/store/trust_anchor.go:278-341 | It prints back as it was exactly when its evidence text is the encoder's spelling of its bytes |
| `AnchorCodec.EvidenceSpellingIsFree` | internal/store/trust_anchor.go:317-327 | That exception is real for every record |
| `AnchorCodec.MigrationKeepsFlatValues` | internal/store/trust_anchor_kubernetes.go:127-141 | Migrating a legacy record preserves all eight values and adds an empty recovery half |
| `AnchorCodec.RecoveryProjectionExact` | internal/store/trust_anchor_composite.go:47-87 | A recovery record is accepted as a record exactly when it is that record's projection |
| `AnchorCodec.RepresentationsAgree` | internal/store/trust_anchor_composite.go:47-60 | What the recovery service is handed agrees field by field with the accepted text: binding, evidence, pending write, generation, transition and receipt |
| `JsonWitness.LawsCanBeMet` | internal/store/trust_anchor.go:237-267 | The laws assumed of JSON hold of some encoding |
| `CtxRWMutex.NoLostWakeup` | internal/store/ctxrwmutex.go:27-93 | In every run a blocked writer means that the lock is held, a blocked reader a holder or a waiting writer that can run |
| `CtxRWMutex.NoDeadlock` | internal/store/ctxrwmutex.go:27-93 | When nobody holds the lock and no thread can step by itself, nobody is waiting |
| `CtxRWMutex.SafetyAndCounting` | internal/store/ctxrwmutex.go:14-100 | A writer excludes everybody else; the counters count exactly the readers and the threads in the writer's wait loop |
| `CtxRWMutex.NoReaderOvertakes` | internal/store/ctxrwmutex.go:27-46 | No reader enters while a writer waits or holds |
| `CtxRWMutex.FreeLockIsTaken` | internal/store/ctxrwmutex.go:27-93 | In every run a reader enters exactly when no thread writes or queues to write, and a writer, first or woken, exactly when no thread reads or writes |
| `CtxRWMutex.BroadcastIsSafe` | internal/store/ctxrwmutex.go:22-25 | Every section that broadcasts finds an open channel, neither nil nor closed |
| `CtxRWMutex.StepKeeps` | internal/store/ctxrwmutex.go:27-100 | Every section, wakeup and cancellation keeps the invariant behind these |
| `CtxRWMutex.Lock.TryRead` | internal/store/ctxrwmutex.go:27-39 | A reader gets the lock exactly when no writer holds it or waits, and otherwise changes nothing but the channel it will wait on |
| `CtxRWMutex.Lock.TryWrite` | internal/store/ctxrwmutex.go:57-71 | A writer gets the free lock, or counts itself as waiting |
| `CtxRWMutex.Lock.TryWriteAgain` | internal/store/ctxrwmutex.go:86-92 | A woken writer gets the free lock and stops counting, or changes nothing |
| `CtxRWMutex.Lock.StopWaiting` | internal/store/ctxrwmutex.go:73-84 | A cancelled writer stops counting; the last one wakes everybody |
| `CtxRWMutex.Lock.ReleaseRead` | internal/store/ctxrwmutex.go:48-55 | The last reader wakes everybody |
| `CtxRWMutex.Lock.ReleaseWrite` | internal/store/ctxrwmutex.go:95-100 | The writer frees the lock and wakes everybody |
| `AccessTheorems.EnrollmentConserved` | internal/store/store.go:2007-2023 | In every run a batch has counted exactly the enrollments it paid for, within its limit, each under its own number and serial, and an open batch has room left |
| `AccessTheorems.DevicesAreDistinct` | internal/store/store.go:2038-2073 | Every device was paid for and has an existing host, a key and a serial of its own |
| `AccessTheorems.TokenPaysOnce` | internal/store/store.go:2021-2033 | A one-use token that paid is gone for good and pays for no other device, ever |
| `AccessTheorems.EnrollmentSpendsOnce` | internal/store/store.go:2005-2076 | An accepted enrollment takes one place or one token, or one of each, for one device and one host; a refused one changes nothing |
| `AccessTheorems.RevocationIsPermanent` | internal/store/store.go:2212-2238 | After a device is revoked its host never again has a key line, a live grant or a relay grant, and no issue, renew or heartbeat changes a table, whatever else happens |
| `AccessTheorems.RevokedHostIsRetired` | internal/store/store.go:2225-2227 | A revoked device's host is retired already: the skipped transaction would change no device and no relay grant |
| `AccessTheorems.HeartbeatExact` | internal/store/store.go:2198-2209 | In every run a heartbeat succeeds exactly for a device that is not revoked, on its own host, with its enrolled identity |
| `AccessTheorems.VerifiedHeartbeatIsAllOrNothing` | internal/api/api.go:1180-1195 | Once the claimed identity was found in the device's row, its heartbeat succeeds exactly if the device is still there and not revoked, and otherwise writes nothing, whatever happened in between |
| `AccessTheorems.UnverifiedHeartbeatWritesIff` | internal/store/store.go:2198-2209 | The statements without that check, when refused, leave the tables alone exactly if the device is missing or revoked |
| `AccessTheorems.StatusAloneIsNotFinal` | internal/store/store.go:2200 | A host marked revoked stays unavailable under heartbeats exactly when it has no device left |
| `AccessSnapshots.JoinedInjective` | internal/store/store.go:1318 | The joined text determines the list of grants |
| `AccessSnapshots.GenerationsNeverDecrease` | internal/store/store.go:1317-1349 | Until its host is deleted a login's generation never decreases, and one generation always means one digest and one recorded grant set |
| `AccessSnapshots.PublicationExact` | internal/store/store.go:1319-1336 | A publication opens a generation exactly when it changes the digest or the recorded grants |
| `AccessSnapshots.AnsweredGenerationIsPublished` | internal/store/store.go:1337-1349 | The generation read after a publication, whoever published in between, belongs to a publication with the same digest and is no older than the publisher's own |
| `AccessSnapshots.AcknowledgementExact` | internal/store/store.go:1351-1386 | An acknowledgement succeeds exactly when it names the current snapshot |
| `AccessSnapshots.InstalledWasPublished` | internal/store/store.go:1367-1378 | In every run a grant is installed only by an acknowledgement of a generation that recorded it, for its own login, before it expired |
| `AccessSnapshots.StepKeeps` | internal/store/store.go:901-2238 | Every table operation keeps the invariant behind the results on enrollment, revocation and snapshots |
| `AccessStore.Store.EnrollDevice` | internal/store/store.go:1949-2078 | Succeeds exactly when something payable enrolls the device, or when the same key retries with the same identity, which consumes nothing; a new device and its host carry the caller's own fields; every refusal changes nothing |
| `AccessRows.EnrollAcceptedIff` | internal/store/store.go:2005-2076 | The database accepts an enrollment exactly if its place and its token are still there and its serial and key are free |
| `AccessRows.EnrollEffect` | internal/store/store.go:2005-2077 | The device row carries the caller's endpoint, fingerprint, key and model, the host row its endpoint, account, port and tags; exactly the planned place and token are consumed and no other row moves |
| `AccessRows.EnrollmentIsRepeatable` | internal/store/store.go:1963-1976 | After an enrollment the same call finds its key known, with its own fingerprint and serial |
| `AccessRows.EnrolledDeviceBeats` | internal/store/store.go:2198-2209 | After an enrollment a heartbeat with the enrolled endpoint and fingerprint touches all three rows, and the host is reachable |
| `AccessRows.LooseTokenPays` | internal/store/store.go:1977-2036 | A one-use token of no batch pays, until it expires, for any valid serial the device asks for |
| `AccessRows.BatchTokenPays` | internal/store/store.go:1977-2036 | A token of a batch pays together with the batch's next place, for that place's serial only |
| `AccessRows.BatchPays` | internal/store/store.go:1977-2036 | A batch's own token pays with its next place while it is open, unexpired and not full |
| `AccessRows.UnknownHashPaysNothing` | internal/store/store.go:1977-1992 | Any other token pays nothing |
| `AccessRows.CreateTokenEffect` | internal/store/store.go:1802-1836 | A token is created exactly unexpired, for an open batch or none, under a new hash, and carries what it was given |
| `AccessRows.CreateBatchEffect` | internal/store/store.go:1879-1908 | A batch is created exactly with a usable prefix, a future deadline, 1 to 10000 places and a new name and hash, open and unused |
| `AccessRows.ClosedBatchPaysNothing` | internal/store/store.go:1932-1947 | A closed batch pays for nothing more |
| `AccessRows.SixDigitsExact` | internal/store/store.go:2005-2013 | A place below a million is numbered by its own six digits |
| `AccessStore.Store.FindPlan` | internal/store/store.go:1977-2036 | The reads find a payable token or batch exactly when there is one |
| `AccessStore.Store.EnrollTransaction` | internal/store/store.go:2015-2076 | The statements in order, all of them or none; on success the device row and the host row are the caller's |
| `AccessStore.Store.IssueSSHAccess` | internal/store/store.go:1496-1519 | Grant and request appear together, exactly for an available host, with the user, host, account and deadline given |
| `AccessEffects.IssueEffect` | internal/store/store.go:1496-1519 | An issued grant is the given user's, for the given host and account, until the given time, not installed; without a reachable host nothing is written |
| `AccessEffects.CreateGrantEffect` | internal/store/store.go:1467-1491 | So is a grant for an approved request |
| `AccessEffects.KeyLinesExact` | internal/store/store.go:1224-1250 | A key line is a key of the user of an unexpired grant of that login, with that grant's deadline, while the host is reachable |
| `AccessEffects.LiveGrantsExact` | internal/store/store.go:1251-1277 | A snapshot represents exactly the login's unexpired grants while the host is reachable |
| `AccessEffects.IssueGivesKeys` | internal/store/store.go:1224-1519 | Issuing access adds exactly the granted user's keys, with the grant's deadline, to the one login it names, until it expires; no other login's key lines move |
| `AccessStore.Store.CreateRelayAccessGrant` | internal/store/store.go:1734-1755 | One relay grant, exactly for an available host |
| `AccessStore.Store.RenewRelayAccessGrant` | internal/store/store.go:1757-1779 | Afterwards the client has exactly the new grant; without an available host nothing moves |
| `AccessEffects.CreateRelayEffect` | internal/store/store.go:1734-1755 | A relay grant is the given client's for the given host and time |
| `AccessEffects.RenewRelayEffect` | internal/store/store.go:1757-1779 | A renewal replaces this client's grants on this host, and nobody else's |
| `AccessEffects.RelayLetsIn` | internal/store/store.go:1734-1800 | Either grant lets its client in until it expires |
| `AccessStore.Store.TouchDevice` | internal/store/store.go:2189-2210 | The three statements of a heartbeat and the row count it judges them by |
| `AccessRows.HeartbeatNeedsIdentity` | internal/store/store.go:2198-2209 | All three rows are touched exactly for a device that is not revoked, on its own host row, with its enrolled endpoint and fingerprint |
| `AccessRows.TouchEffect` | internal/store/store.go:2198-2209 | Which column of which row each of the three statements sets |
| `AccessStore.Store.DeleteDevice` | internal/store/store.go:2212-2238 | Refused without the row, nothing for a revoked device, the whole revocation otherwise |
| `AccessRows.DeleteDeviceEffect` | internal/store/store.go:2228-2237 | Revoking expires every unexpired grant of the host now and removes its relay grants, marks device and host, and leaves every other host's rows alone |
| `AccessStore.Store.DeleteHost` | internal/store/store.go:1013-1036 | The complete binding goes with the host |
| `AccessRows.DeleteHostEffect` | internal/store/store.go:1019-1035 | In each of the seven tables exactly the host's rows go |
| `AccessRows.CreateHostEffect` | internal/store/store.go:901-984 | A host is created exactly under a valid new name and account, with the documented defaults |
| `AccessRows.UpdateHostEffect` | internal/store/store.go:986-1011 | An update needs a valid name no other host has, and changes that host's row only |
| `AccessRows.KeyEffects` | internal/store/store.go:1123-1396 | Adding and removing a key moves its row only |
| `AccessRows.DiscoverEffect` | internal/store/store.go:1691-1706 | A discovery replaces its host's row only |
| `AccessStore.Store.ListRows` | internal/store/store.go:1327-1337 | The marker and every listed grant, refused exactly for a grant listed twice |
| `AccessStore.Store.Publish` | internal/store/store.go:1317-1349 | With nobody between its transaction and its read the answered generation is the current one for the digest just published |
| `AccessEffects.PublishEffect` | internal/store/store.go:1317-1349 | A publication records exactly the listed grants under its login and moves no other login |
| `AccessEffects.UnchangedKeepsGeneration` | internal/store/store.go:1258-1325 | Over sorted listings a publication keeps the generation exactly for the same digest and the same set of grants |
| `AccessEffects.SortedIsUnique` | internal/store/store.go:1251-1260 | One set of grants has one sorted listing |
| `AccessStore.Store.AcknowledgeAuthorizedKeys` | internal/store/store.go:1351-1386 | Both statements of an acknowledgement, its verdict, and which rows it marks installed |
| `AccessEffects.AcknowledgementInstalls` | internal/store/store.go:1367-1378 | In every run a successful acknowledgement of generation n installs exactly the grants that the n-th publication of the login recorded and that are still the login's, unexpired and of a user with a key; no other row and no other column moves |
| `AccessEffects.RefusedAcknowledgementChangesNothing` | internal/store/store.go:1357-1385 | Any other acknowledgement changes nothing |
| `AccessEffects.PublishedThenInstalled` | internal/store/store.go:1224-1386 | Published and acknowledged with nothing in between, exactly the live grants of users with a key become installed |
| `Agent.Machine.Sync` | cmd/ternal-agent/main.go:290-366 | One synchronization, whatever fails on the way: the disk and the acknowledgement it leaves |
| `Agent.UpdateIsInstalled` | cmd/ternal-agent/main.go:290-366 | When nothing fails, a well-formed response that follows the record leaves its body in the key file, its generation and digest as the record, and is acknowledged; any other leaves the purged file, the old record and no acknowledgement |
| `Agent.KeysAreDelivered` | cmd/ternal-agent/main.go:290-366 | Whatever fails, only a well-formed response that follows the record ever reaches the key file |
| `Agent.ServedIsInstalled` | cmd/ternal-agent/main.go:337-366 | Over runs against a server, a synchronization without failures leaves exactly the publication just served, recorded and acknowledged |
| `Agent.Machine.Purge` | cmd/ternal-agent/main.go:256-288 | Exactly the lines without a deadline go, the others keep their order |
| `Agent.Machine.Validate` | cmd/ternal-agent/main.go:618-636 | Accepts exactly the bodies whose lines all carry a deadline and a key |
| `Agent.NoUndatedLineSurvives` | cmd/ternal-agent/main.go:299-303 | Whatever else fails, no line without a deadline survives a readable and writable key file |
| `Agent.AcknowledgesWhatIsWritten` | cmd/ternal-agent/main.go:345-365 | An acknowledgement goes out only with the acknowledged body and its record on disk |
| `Agent.RecordNeverGoesBack` | cmd/ternal-agent/main.go:337-344 | Over any synchronizations with any server the recorded generation never decreases, nor does its digest change under it |
| `Agent.StuckIffGenerationZero` | cmd/ternal-agent/main.go:330-379 | A synchronization leaves a record the agent's own reader refuses exactly when there was no record, the response is well formed with generation 0, and nothing fails until it is recorded |
| `Agent.GenerationZeroSticks` | cmd/ternal-agent/main.go:330-379 | One such synchronization |
| `Agent.StuckForever` | cmd/ternal-agent/main.go:337-343 | From then on the record stays and nothing is acknowledged, whatever the server answers |
| `Agent.AcknowledgementsInOrder` | cmd/ternal-agent/main.go:337-365 | Over any synchronizations with any server every acknowledgement follows the ones before it, and the record follows them all |
| `Agent.AcceptsEveryPublication` | cmd/ternal-agent/main.go:337-344 | Until its host is deleted, an agent that started without a record accepts every response of a server run, whatever failed in between |
| `Wildcard.WildcardMatches` | internal/core/core.go:491-518 | True exactly for the values the pattern means, a star standing for any string, although the last part is tested on the whole value |
| `Wildcard.GlobIsParted` | internal/core/core.go:498 | A pattern means its parts between stars, in order |
| `Wildcard.LeftmostIsBest` | internal/core/core.go:511-515 | Before another star the leftmost occurrence of a part is as good as any |
| `ProxyCommand.UnquoteInvertsQuote` | internal/core/core.go:263-396 | Unquoting inverts quoting exactly for the values without a double quote or with a single one, and refuses the others |
| `ProxyCommand.ShellReadsQuoted` | internal/core/core.go:263-270 | By section 2.2 of the POSIX Shell Command Language the shell reads a quoted value as that value exactly if the value holds a character that makes it quoted, or none that the shell takes for more than itself |
| `ProxyCommand.ShellReadsAddress` | internal/core/core.go:263-304 | So every text of address and relay URL characters reaches the helper as it is, brackets included |
| `ProxyCommand.FieldsSpaced` | internal/core/core.go:322 | Words printed with single spaces are split back into the same words |
| `ProxyCommand.AppendRouteArgs` | internal/core/core.go:293-315 | Prints direct addresses, then relays, exactly when there is a route and all are valid |
| `ProxyCommand.ValidateRouteArgs` | internal/core/core.go:355-379 | Accepts exactly the argument lists that read as routes |
| `ProxyCommand.ReadRoutesExact` | internal/core/core.go:355-379 | Arguments read as routes exactly if they are pairs of a route's flag and a word that unquotes to its valid address |
| `ProxyCommand.ValidateProxyCommand` | internal/core/core.go:317-333 | Accepts exactly the options whose command and routes are well formed |
| `ProxyCommand.BuildGrantAwareProxyCommand` | internal/core/core.go:272-282 | Whatever it prints is accepted by the validator and read back as the routes it was given |
| `Sessions.RevokedStaysOut` | internal/auth/auth.go:329-356 | With clocks at most 600 seconds apart, once a session is revoked no request that had not looked it up yet is admitted with it, on any node, whatever has been swept |
| `Sessions.UnrevokedGetsIn` | internal/auth/auth.go:329-356 | In every run an undisturbed request is admitted exactly with a session its node's clock does not show expired and that has no row; a session nobody revoked has none |
| `Sessions.LogoutWritesRow` | internal/store/store.go:860-870 | Logging out writes the session's row with its own expiry, exactly for a session not yet expired |
| `Sessions.SkewBoundIsNeeded` | internal/store/store.go:26-32 | For every larger skew a run in which a revoked session comes back |
| `Sessions.SweptIsOver` | internal/store/store.go:860-877 | A swept session is over on every clock |
| `Sessions.LateLookup` | internal/store/store.go:879-891 | A lookup that misses a revoked session finds it expired |

## Left out

- The fencing protocol is a step relation, not imperative methods: the source's mutexes and loops span network calls between which other processes act. `trustMu`, which only serializes one node's calls, is not used, so its absence is covered.
- Rhiza and Kubernetes themselves: represented by the assumptions above; the recovery coordinator and its proof verifier by the two admitted recovery steps.
- Liveness under contention: a node that stops between reserving and executing leaves the fence pending by design; only undisturbed progress is stated.
- TrustReads.RollbackRejected: "no write reserves after a rollback" is false; `TrustReads.RollbackFencesIff` says exactly when one can.
- TrustTheorems.AcknowledgedStays: a restore that loses a fenced write may drop acknowledged ones, which `ReadsAreCurrent` and `RollbackRejected` then keep from being read over.
- The CEL expressions are predicates over the stored text; the Kubernetes metadata rules of the same policy, the pod and workload rules and the rendering of YAML are not modelled.
- JSON and SHA-256 are abstract: lawful or collision-free functions.
- Audit events, policies, access-request approval and listing queries: no invariant of the tables depends on them. An access is therefore counted by two rows instead of three.
- AccessSnapshots.InstalledWasPublished: that an installed grant's key was in the acknowledged body is not claimed; the code looks for a user key when it is acknowledged, not when it is published.
- AccessTheorems.RevocationIsPermanent: speaks of the set of key lines; the formatting of the lines, the maximum over a key's grants, the size budget of the server's body, and the times in them are not modelled.
- Agent.Machine.Sync: nothing is claimed about the key file going back across a crash between its two writes; only the record is ordered. File locks, ownership and the HTTP exchange are outcomes given as parameters.
- Snapshots of a deleted host restart at generation 1: `GenerationsNeverDecrease` and `AcceptsEveryPublication` end there, as does the source's promise.
- `net.ParseIP` and the other library checks of a direct address: a parameter that accepts no space and no quote. Text is a sequence of characters, not of bytes.
- Host and token creation, batches and keys are transactions on the tables without a method of their own: each is one guarded statement.
- KubernetesAnchor.ConfigMap.Cas: a response lost after the write landed is a step of the fencing protocol, not an outcome of this method.
- AccessStore.Store.Publish: other nodes' steps between its two statements are in `AccessSnapshots.AnsweredGenerationIsPublished`, not in the method.
- AccessTheorems.VerifiedHeartbeatIsAllOrNothing: the signature and the freshness of a request are not modelled, only the identity check before the store call.
- AccessStore.Store.EnrollDevice: relies on the UNIQUE columns of tokens, batches and device keys, which `AccessSnapshots.StepKeeps` shows every operation keeps.
- `FilterVisibleHosts` and the policy predicates around the wildcard: flat filters over it.
- HTTP routing, OIDC, CSRF, the web interface, the command line, local preflight and restore, environment and Azure configuration.
- The development headers of the authentication middleware and the middleware without a revocation store.
