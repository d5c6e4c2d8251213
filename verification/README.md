# Mirror copy-trading engine: a Dafny model of its off-chain core

The off-chain half of the system turns an encrypted signal of a lead trader into trades of the followers. This
project models the parts of it whose correctness depends on more than one function, and proves what they keep
over every run:

- **The serialized action server.** A promise chain is the only lock in front of all handlers. `PromiseChain`
  models promises as cells that settle once and callbacks that fire at any later moment (section 27.2.5.4 of
  ECMA-262), with jobs cut into atomic segments between awaits. It proves mutual exclusion, FIFO order,
  progress past failing jobs, linearizability for arbitrary jobs, and refinement of a plain FIFO lock.
  `ActionServer` draws the conclusion for the handlers, their plain module-level counters and the outcome log;
  `Dispatch`, `Encoding`, `Utf8` and `Utf8Repair` cover the handler table and the codec in front of them.
- **Resumable TEE registration.** `Registration` runs the steps r, R, a, p against a chain on which any call may
  fail, or succeed without the caller learning of it, with a crash possible between any two calls and any number
  of resumes and fresh starts. Effects on the chain and successful saves form one trace, about which safety,
  freshness of the ids and completion by a healthy invocation are proved. `CommandChanges` drops the assumption
  that all invocations have the same command. `RegistrationGuards` tells exactly what an attempt adds and saves from
  what holds before it, so that no effect happens without the guard in front of it.
- **The XRPL payment monitor and the attestation request.** `PaymentMonitor` interleaves all calls of
  `processPayment` and all segments of all runs, over a heap of status records that the status map aliases, in a
  process that starts on whatever files and executed payments earlier ones left. `RecordStates` follows the records
  through a run, `StatusFiles` and `FileHistory` the files through runs and restarts, `PaymentPaths` a run to success
  or failure.
  `Attestation` covers the fee-bumping loop, the voting-round arithmetic, and the in-process gate (an instance of
  `PromiseChain`).
- **Matching and sizing.** `Sizing` holds the nested floor divisions, `MatchHandler` the two handlers with every
  branch and error, `OutcomeLog` the bounded log they feed. `Signals` restates what the handlers answer in terms of
  the signal and the configuration alone: which signals succeed, whom each instruction serves, why others fail.
- **Scoring, classification, drift.** `Drawdown`, `Scoring`, `Classify` and `Drift` over the events and the stable
  sort of `Events`. `ScoreLaws` says what the composite rewards and its components measure, `DirectionRuns` gives the
  autocorrelation of any series in closed form, `ClassLaws` the classes the features decide. JavaScript numbers are reals here, and `Math.sqrt` is any function that is non-negative and
  squares back.

`Wrappers`, `Text`, `Json` and `Arithmetic` hold what the other modules share.

Code that updates fields is a class whose methods are proved against a step function of its state, and the
theorems are about runs of those step functions. `dafny verify dfyconfig.toml` checks everything.

## Assumptions

- Callbacks and awaited operations complete in any order the causality of promises allows; nothing else runs
  in between the statements of one segment.
- Registration: saving the state file is atomic and succeeds, as `Call` says in `Registration`.
- Payment monitor: the controller lets a simulation or a transaction pass only for a payment it has not executed,
  reports an executed one as such, and answers `getPersonalAccount` by a fixed function of the XRPL address; others
  may execute payments before and while the process runs. A submission of the process itself resolves before its run
  settles; one that a dead process left pending counts as somebody else's.
- Letter case is folded on ASCII letters only.

## Findings

Some promises hold only under a condition, which the model makes exact:

- A run of the payment monitor leaves a terminal state exactly when its very first `persist` did not throw
  (`PaymentMonitor.SettledIsTerminal`): that call stands outside the `try` block. `FirstPersistCanThrow` is such a
  run.
- A call for a payment that is not in flight is answered by an unfinished one exactly when a status file of an
  earlier process, in `minting_fxrp` and under that very spelling of the address, is still the only record of the
  address (`StatusFiles.StaleFilePinsPayment`). Repeating the call changes nothing (`PinnedUntilRecorded`);
  a watcher event for the address, or a run for it under another spelling, ends this for good (`PinEndsForGood`,
  `SeenIsInFlight`, `OtherSpellingStartsRun`).
- A success survives a restart exactly when its record is what was last written under exactly its address
  (`FileHistory.OnDiskIffLastWritten`), so always while the status map still answers with it
  (`StatusFiles.SuccessSurvivesRestart`). That no later record has the address is not enough: when two payments of one
  address overlap and the older run fails last, its write takes the map entry and the file from the younger success
  (`PaymentPaths.OlderRunOverwrites`).
- Availability checks name the most recent attestation in all histories of one registration command exactly when it
  contains `r` or `R`; otherwise every check carries the zero id (`Registration.ChecksAreFreshIffAttesting`). When the
  command changes between invocations, they do so exactly when each invocation that makes a check found its attestation
  current (`CommandChanges.TurnsFreshIffCurrent`); `rRa` with R lost, resumed with `ra`, is one that does not
  (`ChangedCommandIsStale`). Promotions stay fresh in any case (`TurnsPromoteFresh`).
- After somebody else has executed a payment, the one run whose simulation had passed before may still submit it, once,
  and in vain (`PaymentMonitor.OutsideExecution`).
- A string survives the round trip through bytes32 exactly when it has no lone surrogate, no trailing U+0000 and no
  leading byte order mark (`Encoding.Bytes32RoundTrip`).
- Allocations may be fractional and are truncated to whole basis points. When they sum to 10,000 and the base holds
  10,000 units per follower, less than one unit per follower is left over exactly when all of them are whole
  (`Sizing.RawDustIffWhole`); [3333.5, 6666.5] loses a ten-thousandth of the base (`HalfBasisPointsAreLost`). For any
  base, `RawShortfall` gives the exact shortfall.
- The one-pass drawdown is the two-index maximum exactly when no drop from the lowest positive equity so far to a
  negative level exceeds it (`Drawdown.WorstIsMaxIffCoversNegative`), so always for returns of at least -1;
  [-0.5, -3.0] is an input for which it is not (`BelowMinusOneMissesTheMaximum`).
- The voting round named for a block contains it exactly when the block is in or after the first epoch, or a whole
  number of epochs before it (`Attestation.RoundNamedContainsBlockIff`).
- Two event lists sort alike exactly when each timestamp has the same events in the same order, and then they score
  alike (`Events.SameSortIffSameByKey`, `Scoring.ScoreDeterminedByTies`). Lists that differ in the order of tied
  events score alike exactly when their drawdowns agree (`TiesMatterThroughDrawdown`), and these can differ
  (`TiesKeepTheirOrder`).

## Model

| member | source | states |
|---|---|---|
| PromiseChain.Server.constructor | fce-matching-engine/typescript/src/base/server.ts:41 | the chain starts with one fulfilled promise and no job |
| PromiseChain.Server.Then | fce-matching-engine/typescript/src/base/server.ts:205-209 | `then` returns at once with a new pending promise and touches no other |
| PromiseChain.Server.Serialize | fce-matching-engine/typescript/src/base/server.ts:204-211 | the caller gets the job's own promise, the queue field the one derived from it that swallows rejection |
| PromiseChain.StepKeepsInv | fce-matching-engine/typescript/src/base/server.ts:204-211 | every call, callback, resumption and settlement keeps the invariant: settled jobs ended as in sequential execution, at most the first unsettled one has started, all later ones are untouched |
| PromiseChain.MutualExclusionAndOrder | fce-matching-engine/typescript/src/base/server.ts:199-211 | in every interleaving at most one job is started and unsettled, jobs start in the order of the calls, and the queue promise never rejects |
| PromiseChain.NeverWedged | fce-matching-engine/typescript/src/base/server.ts:199-211 | whenever a job waits and no job's body is running, at most three enabled events start the next one: the settlement of a finished job and two callbacks, whether earlier jobs returned or threw |
| PromiseChain.Linearizable | fce-matching-engine/typescript/src/base/server.ts:199-211 | the k-th job is the k-th call, and its promise settles with the outcome of running the calls one after the other |
| PromiseChain.RefinesFifoLock | fce-matching-engine/typescript/src/base/server.ts:204-211 | every run of the chain, from the start on, is event by event a legal run of a lock with a FIFO queue that starts free, and ends in the lock state seen in the chain |
| ActionServer.Handlers.constructor | fce-matching-engine/typescript/src/app/handlers.ts:30-35 | counters start at 0, texts empty |
| ActionServer.Handlers.ResetState | fce-matching-engine/typescript/src/app/handlers.ts:38-43 | all four fields return to their initial values |
| ActionServer.Handlers.HandleSayHello | fce-matching-engine/typescript/src/app/handlers.ts:64-104 | a well-formed greeting counts, stores and reports its number; a malformed one changes nothing and is refused |
| ActionServer.Handlers.HandleSayGoodbye | fce-matching-engine/typescript/src/app/handlers.ts:107-137 | the same for farewells, which leave the greeting counter alone |
| ActionServer.Handlers.ReportState | fce-matching-engine/typescript/src/app/handlers.ts:54-61 | the snapshot is the current state |
| ActionServer.HelloAcceptedIff | fce-matching-engine/typescript/src/app/handlers.ts:64-91 | a greeting is accepted exactly when its message is an object with a non-empty string as `name` and no other key |
| ActionServer.HelloRefusedIff | fce-matching-engine/typescript/src/app/handlers.ts:64-91 | and refused for the first of: bad hex, bad JSON, no object, an unknown key, no proper name |
| ActionServer.GoodbyeAcceptedIff | fce-matching-engine/typescript/src/app/handlers.ts:107-125 | a farewell is accepted exactly when it decodes to a non-empty name and any reason |
| ActionServer.SequentialState | fce-matching-engine/typescript/src/app/handlers.ts:64-137 | after any jobs run in sequence, the state is the number and last text of the accepted greetings and farewells, and the log of the records |
| ActionServer.RepliesAreSequential | fce-matching-engine/typescript/src/base/server.ts:153-197 | in every run of concurrent actions and state reads, each reply and snapshot is the one of a server that serves the requests one by one in queue order, each on the inputs it was given |
| ActionServer.HelloNumbersAreConsecutive | fce-matching-engine/typescript/src/app/handlers.ts:84-104 | the accepted SAY_HELLO calls get exactly 1, 2, ..., n in queue order; failing calls take no number |
| ActionServer.LogHoldsAnsweredTrades | fce-matching-engine/typescript/src/app/handlers.ts:471-491 | in every interleaving the log is the last 10,000 records in queue order, one per MATCH_V1 call answered with a payload so far and none for any other |
| Encoding.HexToBytes | fce-matching-engine/typescript/src/base/encoding.ts:16-35 | null gives no bytes, odd length and non-hex characters fail, anything else gives the byte of each digit pair |
| Encoding.ValuesAt | fce-matching-engine/typescript/src/base/encoding.ts:30-34 | byte i is the value of digits 2i and 2i+1 |
| Encoding.BytesToHex | fce-matching-engine/typescript/src/base/encoding.ts:38-42 | the loop yields the prefix and two digits per byte |
| Utf8.DecodeTextEncoded | fce-matching-engine/typescript/src/base/encoding.ts:51-73 | encoding a string and decoding it drops one leading byte order mark and replaces lone surrogates, and changes nothing else |
| Utf8.EncodeInjective | fce-matching-engine/typescript/src/base/encoding.ts:51 | strings are encoded alike exactly when they agree up to lone surrogates |
| Utf8Repair.DecodesMaximalParts | fce-matching-engine/typescript/src/base/encoding.ts:73 | any bytes at all: a well-formed sequence at the head gives its code point, otherwise one U+FFFD stands for the longest start of one, or for a single byte that starts none |
| Utf8Repair.DecodedIsScalar | fce-matching-engine/typescript/src/base/encoding.ts:73 | so every decoded text can be encoded again |
| Encoding.StringToBytes32Hex | fce-matching-engine/typescript/src/base/encoding.ts:50-58 | strings of more than 32 bytes in UTF-8 fail, others are padded with zeros on the right |
| Encoding.TrimCut | fce-matching-engine/typescript/src/base/encoding.ts:71-73 | the `end` the loop stops at cuts off exactly the trailing zeros |
| Encoding.Bytes32HexToString | fce-matching-engine/typescript/src/base/encoding.ts:64-74 | malformed hex gives the empty text, otherwise the bytes without trailing zeros are decoded as UTF-8, malformed sequences included |
| Encoding.BytesRoundTrip | fce-matching-engine/typescript/src/base/encoding.ts:16-42 | bytes to hex to bytes is the identity |
| Encoding.HexRoundTrip | fce-matching-engine/typescript/src/base/encoding.ts:16-42 | decoding succeeds exactly on even-length hex digits after the optional prefix, and the two errors are told apart by the length; hex to bytes to hex is the lower-case prefixed form |
| Encoding.PrefixIsOptional | fce-matching-engine/typescript/src/base/encoding.ts:18-24 | `0x`, `0X` and no prefix are decoded alike |
| Encoding.Bytes32RoundTrip | fce-matching-engine/typescript/src/base/encoding.ts:50-74 | a string comes back without trailing U+0000s and a leading byte order mark, lone surrogates replaced; so unchanged exactly when it has none of these |
| Encoding.Bytes32Injective | fce-matching-engine/typescript/src/base/encoding.ts:50-58 | two encoded texts share a bytes32 form exactly when they agree up to trailing zero bytes |
| Encoding.Bytes32OfStrings | fce-matching-engine/typescript/src/base/encoding.ts:50-58 | two strings share a bytes32 form exactly when they agree up to lone surrogates and trailing U+0000s |
| Dispatch.Framework.constructor | fce-matching-engine/typescript/src/base/types.ts:89 | the table starts empty |
| Dispatch.Framework.Handle | fce-matching-engine/typescript/src/base/types.ts:96-102 | identifiers of at most 32 bytes are appended in bytes32 form; longer ones are refused and leave the table alone |
| Dispatch.Framework.Lookup | fce-matching-engine/typescript/src/base/types.ts:105-116 | the two loops find the first exact pair, else the first wildcard |
| Dispatch.SpellingNormalizes | fce-matching-engine/typescript/src/base/types.ts:119-124 | every letter case and prefix of a name's hex form, and "" for the empty name, normalizes to the registered form |
| Dispatch.FirstNamedIsFirst | fce-matching-engine/typescript/src/base/types.ts:109-111 | the handler found by names is the one of the first registration with these names, and none is found only if there is none |
| Dispatch.ProperNamesDiffer | fce-matching-engine/typescript/src/base/types.ts:97-101 | names without lone surrogates and trailing U+0000s are the same on the wire only if they are equal |
| Dispatch.DispatchByName | fce-matching-engine/typescript/src/base/types.ts:96-124 | for any registrations and any spelling of the request, the first handler registered under the two names is found, else the first wildcard of the op-type |
| Dispatch.NoneShadowed | fce-matching-engine/typescript/src/base/types.ts:96-117 | when no pair is registered twice, each registration is found under its own names, wildcards and order notwithstanding |
| Dispatch.TableSnoc | fce-matching-engine/typescript/src/base/types.ts:96-102 | registering one more pair through `Handle` extends the table the theorems are about |
| Registration.Registrar.constructor | fce-matching-engine/tools/pkg/fccutils/registration.go:33-38 | at first there is no state file and no effect |
| Registration.Registrar.SaveState | fce-matching-engine/tools/pkg/fccutils/registration.go:48-57 | the file holds the state, and the save is recorded |
| Registration.Registrar.PreRegister | fce-matching-engine/tools/pkg/fccutils/registration.go:74-106 | step r: skipped with the saved id, or carried out as registration or fresh attestation and saved, or ended by an error before or after the effect |
| Registration.Registrar.RequestAttestation | fce-matching-engine/tools/pkg/fccutils/registration.go:108-124 | step R likewise |
| Registration.Registrar.RequestCheck | fce-matching-engine/tools/pkg/fccutils/registration.go:126-155 | step a likewise, with the policy pre-flight; without a in the command the id given on the command line is used |
| Registration.Registrar.Promote | fce-matching-engine/tools/pkg/fccutils/registration.go:157-167 | step p: no proof, no promotion; a promotion names the instruction id at hand |
| Registration.Registrar.RegisterNode | fce-matching-engine/tools/pkg/fccutils/registration.go:59-172 | an attempt is the four steps on the loaded state, then the removal of the file |
| Registration.NextIs | fce-matching-engine/tools/pkg/fccutils/registration.go:74-152 | the only missing step an attempt can carry out is the next one of r, R, a, and saving it keeps the step string a prefix |
| Registration.AttemptSafe | fce-matching-engine/tools/pkg/fccutils/registration.go:59-172 | any attempt from a safe state file and trace leaves a safe trace, and a safe pair if it did not complete |
| Registration.CampaignSafe | fce-matching-engine/tools/pkg/fccutils/registration.go:59-172 | any failing attempts and resumes keep the safe pair, up to the first one that completes |
| Registration.RegistrationSafe | fce-matching-engine/tools/pkg/fccutils/registration.go:59-172 | over any failures and crashes each followed by a resume: the saved steps are a prefix of those asked for, effects are ordered r, R, a, p, no step is repeated after its save, and no promotion precedes an effect of each step asked for |
| Registration.FreshStartSafe | fce-matching-engine/tools/cmd/register-tee/main.go:27-32 | a fresh start after any history, completed ones included, and its resumes add a trace that is safe by itself |
| Registration.InvocationsFresh | fce-matching-engine/tools/cmd/register-tee/main.go:27-32 | freshness of the ids survives any invocations, with or without resume, even when the stale file cannot be deleted |
| Registration.PromotionsAreFresh | fce-matching-engine/tools/pkg/fccutils/registration.go:126-167 | every promotion names the most recent availability check, or the given id when the command asks for none |
| Registration.UnattestedChecksAreZero | fce-matching-engine/tools/pkg/fccutils/registration.go:74-142 | without r and R every availability check in every history carries the zero attestation id |
| Registration.ChecksAreFreshIffAttesting | fce-matching-engine/tools/pkg/fccutils/registration.go:74-142 | every availability check names the most recent attestation in all histories exactly when the command contains r or R; otherwise each carries the zero id |
| Registration.HealthyInvocationCompletes | fce-matching-engine/tools/pkg/fccutils/registration.go:59-172 | after any invocations, failed, crashed or completed, one in which nothing fails carries out exactly the steps not yet saved (all of them on a fresh start), promotes, and removes the file |
| RegistrationGuards.AttemptLaw | fce-matching-engine/tools/pkg/fccutils/registration.go:59-172 | any attempt, from any file and under any command, returns without an error exactly when every guard on its way held; what it adds to the chain, in order and with which ids, and what it leaves in the file, told from what held before it |
| RegistrationGuards.EffectNeedsGuards | fce-matching-engine/tools/pkg/fccutils/registration.go:74-167 | each effect and each save happens if and only if the guards in front of it hold, with exactly these ids: no registration of a known machine and no re-attestation of an unknown one, no check against an inconsistent policy |
| RegistrationGuards.NoProofNoPromotion | fce-matching-engine/tools/pkg/fccutils/registration.go:157-167 | without a proof an attempt promotes nothing, and fails if it was to promote |
| RegistrationGuards.TurnsNeedGuards | fce-matching-engine/tools/cmd/register-tee/main.go:21-32 | over any invocations with any commands there are at most as many effects of each kind as turns that asked for them, found their guard open and reached the chain |
| RegistrationGuards.InvocationsNeedGuards | fce-matching-engine/tools/cmd/register-tee/main.go:27-32 | with one command: at most as many promotions as invocations with a proof, checks as those with a consistent policy, registrations as those with an unknown machine, re-attestations as those with a known one |
| CommandChanges.AttemptFreshIffCurrent | fce-matching-engine/tools/pkg/fccutils/registration.go:74-152 | from any state file and trace, the check of an attempt names the latest attestation exactly when the attempt re-attests or the id it hands on was the latest before it |
| CommandChanges.TurnsFreshIffCurrent | fce-matching-engine/tools/cmd/register-tee/main.go:21-32 | over invocations with changing commands, all checks are fresh exactly when each invocation that makes one was current when it started |
| CommandChanges.ChangedCommandIsStale | fce-matching-engine/tools/pkg/fccutils/registration.go:108-142 | R lost under rRa and a resume with ra: the check names the attestation before the latest |
| CommandChanges.TurnsPromoteFresh | fce-matching-engine/tools/pkg/fccutils/registration.go:126-167 | over invocations with changing commands, each promotion names the latest check if its command asks for one, else its given id |
| PaymentMonitor.Process.constructor | scripts/relayer/xrpl-monitor.ts:56 | a process starts with empty maps, on the files of an earlier one, with any payments already executed |
| PaymentMonitor.Process.PersistRecord | scripts/relayer/xrpl-monitor.ts:62-67 | both map entries alias the record even if the write throws; the file is replaced only if it does not |
| PaymentMonitor.Process.LookUpStatus | scripts/relayer/xrpl-monitor.ts:69-75 | map entry of the lower-cased key first, else the file of that very name, else nothing |
| PaymentMonitor.Process.RunProcessPayment | scripts/relayer/xrpl-monitor.ts:247-259 | a new record in requesting_fdc is persisted; if that throws, the run is rejected at once |
| PaymentMonitor.Process.Handle | scripts/relayer/xrpl-monitor.ts:223-245 | a run in flight is shared, a reusable cached record is returned, otherwise one run starts and becomes the one in flight |
| PaymentMonitor.Process.OnTransaction | scripts/relayer/xrpl-monitor.ts:393-412 | a payment seen is persisted as waiting in a record of its own, then processed |
| PaymentMonitor.Process.AdvanceRecord | scripts/relayer/xrpl-monitor.ts:262-298 | the state is assigned and persisted; a throwing persist leads to the catch block |
| PaymentMonitor.Process.Catch | scripts/relayer/xrpl-monitor.ts:299-304 | the record becomes failed, and the run is rejected even if persisting throws again |
| PaymentMonitor.Process.Finally | scripts/relayer/xrpl-monitor.ts:242 | the key leaves the in-flight map |
| PaymentMonitor.StepKeeps | scripts/relayer/xrpl-monitor.ts:185-305 | every call and every segment of every run keeps the invariant of the maps, the aliased records, the files, the ledger and the answers |
| PaymentMonitor.InflightIsTheUnfinalizedRun | scripts/relayer/xrpl-monitor.ts:217-245 | in every interleaving a key is in flight exactly while an unfinalized run exists for it, there are never two, and the map holds that one |
| PaymentMonitor.CallersShareTheRun | scripts/relayer/xrpl-monitor.ts:219-230 | a caller naming a payment in flight, in any prefix and letter case, starts nothing and gets the run in flight |
| RecordStates.StepForward | scripts/relayer/xrpl-monitor.ts:252-302 | one event moves a record from requesting_fdc to minting_fxrp, from there to sub_account_active, or from either to failed, and never from requesting_fdc to sub_account_active |
| RecordStates.RecordsMoveForward | scripts/relayer/xrpl-monitor.ts:247-305 | between any two moments of any run a record keeps its address and hash, moves only in that direction, and an active one never changes |
| RecordStates.PassesThroughMinting | scripts/relayer/xrpl-monitor.ts:261-297 | a record that became active after requesting_fdc was in minting_fxrp at a moment between |
| PaymentMonitor.SettledIsTerminal | scripts/relayer/xrpl-monitor.ts:247-305 | a settled run left a terminal state exactly when its first persist went through; it is active with the address's personal account exactly when the run succeeded |
| PaymentMonitor.FirstPersistCanThrow | scripts/relayer/xrpl-monitor.ts:252-259 | the legal run whose first persist throws leaves its record in requesting_fdc |
| PaymentMonitor.ExecutedAtMostOnce | scripts/relayer/xrpl-monitor.ts:185-205 | a payment is executed at most once, by whomever; after an execution by this process, or before its start, nothing passes simulation, is submitted or is executed for it again |
| PaymentMonitor.OutsideExecution | scripts/relayer/xrpl-monitor.ts:185-205 | after an outside execution at most one thing follows for the payment: the submission of the run whose simulation had passed before, whose receipt cannot succeed |
| PaymentMonitor.RestartIsIdempotent | scripts/relayer/xrpl-monitor.ts:185-245 | a process restarted on the files of another neither submits nor executes what was executed before, even while transactions left pending land, and successes for an address report the same personal account |
| PaymentMonitor.CacheIsFinished | scripts/relayer/xrpl-monitor.ts:232-240 | a cached record returned for a payment not in flight is active, or an unchanged file from before the start |
| PaymentMonitor.CachedAnswersAreActive | scripts/relayer/xrpl-monitor.ts:232-240 | from an empty status directory every cached answer is the active account of the payment asked for |
| StatusFiles.CallAnswers | scripts/relayer/xrpl-monitor.ts:214-245 | a call is answered by the run in flight, else by the record found for the address exactly if that names the payment in any prefix and letter case and is minting or active, else by one new run, in flight from then on |
| StatusFiles.StaleFilePinsPayment | scripts/relayer/xrpl-monitor.ts:232-240 | at any moment of any run, a call not in flight is answered by an unfinished payment exactly when a stale file stands for that spelling of an address not yet recorded; it then starts nothing |
| StatusFiles.PinnedUntilRecorded | scripts/relayer/xrpl-monitor.ts:232-240 | this lasts through any run in which the address is only asked for this payment in this spelling |
| StatusFiles.PinEndsForGood | scripts/relayer/xrpl-monitor.ts:62-72 | once a record of the address is in the map, the stale file never answers again |
| StatusFiles.SeenIsInFlight | scripts/relayer/xrpl-monitor.ts:402-408 | a payment the watcher records is in flight afterwards, in a new run unless one was in flight, whatever was cached |
| StatusFiles.OtherSpellingStartsRun | scripts/relayer/xrpl-monitor.ts:69-75 | a call under another spelling of a pinned address finds no file and starts a run |
| StatusFiles.FilesFollowRun | scripts/relayer/xrpl-monitor.ts:62-67 | when a run changes the state of its record, the file of exactly its address then holds that record, and a failed write leaves every file as it was; other events of a run touch no file |
| StatusFiles.FilesFollowCall | scripts/relayer/xrpl-monitor.ts:252-259 | a call that starts a run leaves the requesting record in the file if it can be written |
| StatusFiles.FilesFollowSighting | scripts/relayer/xrpl-monitor.ts:402-408 | a recorded sighting leaves the waiting record in the file, or that of the run it starts |
| StatusFiles.PersistedAnswers | scripts/relayer/xrpl-monitor.ts:58-73 | a persisted record answers for its address and for address:hash in any letter case, whether or not it was written |
| StatusFiles.StepDisk | scripts/relayer/xrpl-monitor.ts:62-67 | every event keeps this: a successful run that the status map still answers with is on disk |
| StatusFiles.SuccessSurvivesRestart | scripts/relayer/xrpl-monitor.ts:69-75 | after any run: a process restarted on the files answers the address of such a success with the active record, and a call for the payment with it, and starts no run |
| FileHistory.FilesHoldLastWrite | scripts/relayer/xrpl-monitor.ts:62-67 | after any run a status file holds what was last written under exactly its name, else what it held before |
| FileHistory.OnDiskIffLastWritten | scripts/relayer/xrpl-monitor.ts:62-75 | after any run a success is in its file, and so in the answer of a restarted process, exactly when it is what was last written there |
| PaymentPaths.OlderRunOverwrites | scripts/relayer/xrpl-monitor.ts:62-67 | a success can be overwritten, in the map and on disk, by the failure of an older run for the same address |
| PaymentPaths.CanSucceed | scripts/relayer/xrpl-monitor.ts:261-298 | a run that is attesting can succeed and leaves the personal account of its address; a payment executed before adds nothing to the ledger, any other passes, is submitted and is executed once |
| PaymentPaths.FailureSettles | scripts/relayer/xrpl-monitor.ts:299-304 | at the first operation or write that fails the run and its record end as failed, and the ledger and the in-flight map stay as they are |
| Attestation.SubmitWithRetries | scripts/relayer/fdc.ts:131-167 | one to five attempts, attempt i at the i-times bumped fees, each but the last having lost a nonce race, none after a success |
| Attestation.FirstFeesDouble | scripts/relayer/fdc.ts:131-137 | the first attempt doubles the estimate, or the defaults for what it leaves out; a maximum below the priority fee becomes four times that fee |
| Attestation.PriorityWithinMax | scripts/relayer/fdc.ts:135-164 | every attempt satisfies the rule of EIP-1559 that the priority fee is at most the maximum fee, for every estimate |
| Attestation.FeesRise | scripts/relayer/fdc.ts:163-164 | non-zero fees rise by at least 10 per cent per retry in spite of the floor division; zero fees stay zero |
| Attestation.RetriesBumpByHalf | scripts/relayer/fdc.ts:163-164 | each retry offers one and a half times the fees, rounded down |
| Attestation.FeesStayBounded | scripts/relayer/fdc.ts:140-164 | no attempt offers more than 81/16 of the first one's fees |
| Attestation.RoundContainsBlock | scripts/relayer/fdc.ts:172-183 | the round id is the one voting epoch that contains the block |
| Attestation.RoundNamedContainsBlockIff | scripts/relayer/fdc.ts:183 | the round named contains the block exactly when the block is in or after the first epoch or a whole number of epochs before it; otherwise the round starts after the block |
| Attestation.GateKeepsNoncesApart | scripts/relayer/fdc.ts:187-193 | in every interleaving of requests through the gate the nonces sent strictly increase |
| Attestation.UngatedReadsCollide | scripts/relayer/fdc.ts:96-97 | two requests that both read before either sends keep the nonces increasing exactly when the second counted more foreign transactions than the first |
| Sizing.ShareSumBounds | fce-matching-engine/typescript/src/app/handlers.ts:370-373 | for any list of allocations the shares sum to at most the exact total and less than one unit per follower below it |
| Sizing.FanOutNeverOverspends | fce-matching-engine/typescript/src/app/handlers.ts:355-373 | allocations of at most 10,000 bps never spend more than the base notional |
| Sizing.FanOutDust | fce-matching-engine/typescript/src/app/handlers.ts:355-373 | whole allocations of exactly 10,000 bps leave less than one unit per follower |
| Sizing.TruncationLoses | fce-matching-engine/typescript/src/app/handlers.ts:371 | truncated allocations sum to at most the given ones, and to as much exactly when all are whole |
| Sizing.RawNeverOverspends | fce-matching-engine/typescript/src/app/handlers.ts:355-373 | given allocations of at most 10,000 bps, fractional ones included, never spend more than the base notional |
| Sizing.RawDustIffWhole | fce-matching-engine/typescript/src/app/handlers.ts:355-373 | given allocations of exactly 10,000 bps leave less than one unit per follower if all are whole, and only then once the base holds 10,000 units per follower |
| Sizing.RawShortfall | fce-matching-engine/typescript/src/app/handlers.ts:355-373 | the exact shortfall of given allocations of 10,000 bps, fractional or not, for any base: the dropped fractions of the base and the floor remainders |
| Sizing.RawShareExactness | fce-matching-engine/typescript/src/app/handlers.ts:371-372 | a share never exceeds the exact share of the given allocation, is within one unit of it exactly when the truncated fraction and the floor remainder fit into one, and grows with the allocation |
| Sizing.ShareIsExactWithinOne | fce-matching-engine/typescript/src/app/handlers.ts:372 | each share is within one unit of the exact share of its truncated allocation and monotone in it |
| Sizing.SlippageBound | fce-matching-engine/typescript/src/app/handlers.ts:377-381 | the minimum output is at most 99 per cent of the fair output and less than two units below that, through both floors |
| Sizing.NoFreeRoundTrip | fce-matching-engine/typescript/src/app/handlers.ts:377-379 | converting at one price ratio and back at the inverse never returns more than was put in |
| OutcomeLog.Log.constructor | fce-matching-engine/typescript/src/app/outcomeLog.ts:14-15 | the log starts empty |
| OutcomeLog.Log.AppendOutcome | fce-matching-engine/typescript/src/app/outcomeLog.ts:17-22 | the record is appended and the surplus cut off in front |
| OutcomeLog.Log.GetOutcomesForLead | fce-matching-engine/typescript/src/app/outcomeLog.ts:24-27 | the records whose lead agrees up to letter case |
| OutcomeLog.Log.GetAllOutcomes | fce-matching-engine/typescript/src/app/outcomeLog.ts:29-31 | all records |
| OutcomeLog.Log.ClearOutcomeLog | fce-matching-engine/typescript/src/app/outcomeLog.ts:33-35 | the log is empty |
| OutcomeLog.AppendKeepsLatest | fce-matching-engine/typescript/src/app/outcomeLog.ts:17-22 | appending to the last 10,000 of a history gives the last 10,000 of the longer history |
| OutcomeLog.LogIsLatestOfHistory | fce-matching-engine/typescript/src/app/outcomeLog.ts:14-35 | after any run the log is the last 10,000 records since the last clear, in order |
| OutcomeLog.QueryKeepsOrder | fce-matching-engine/typescript/src/app/outcomeLog.ts:24-27 | the query distributes over concatenation, so it keeps the order |
| OutcomeLog.QueryKeepsMultiplicity | fce-matching-engine/typescript/src/app/outcomeLog.ts:24-27 | the query keeps every record of the lead as often as it occurs, and no other |
| MatchHandler.BuildLoop | fce-matching-engine/typescript/src/app/handlers.ts:367-469 | the loop collects what is built, skips what is empty, and leaves at the first stop |
| MatchHandler.MatchingEngine.HandleMirrorMatch | fce-matching-engine/typescript/src/app/handlers.ts:164-492 | answer and log entry of a call, with every check in the source's order |
| MatchHandler.MatchingEngine.BuildMockVenue | fce-matching-engine/typescript/src/app/handlers.ts:498-596 | the same for the mock venues |
| MatchHandler.MatchingEngine.Finish | fce-matching-engine/typescript/src/app/handlers.ts:471-491 | the record is appended exactly when a payload is returned |
| MatchHandler.StopsAbort | fce-matching-engine/typescript/src/app/handlers.ts:370-469 | one follower that stops the loop drops the whole batch, and the first such one decides the answer |
| MatchHandler.OnePerLiveTarget | fce-matching-engine/typescript/src/app/handlers.ts:370-469 | one instruction per target that is not skipped, in list order |
| MatchHandler.SwapBatch | fce-matching-engine/typescript/src/app/handlers.ts:362-476 | all or nothing: success exactly when all allocations are finite, a router is configured, somebody is funded, and every funded follower has a well-formed address and non-zero amounts that fit; then one instruction per funded follower, in order, for its share and address, in single form exactly when it is the only one |
| MatchHandler.SwapTrades | fce-matching-engine/typescript/src/app/handlers.ts:375-458 | BUY spends USDT0 for FXRP and SELL the reverse, at the prices read for those two, within 99 per cent and two units of the fair output |
| MatchHandler.BatchConservation | fce-matching-engine/typescript/src/app/handlers.ts:357-373 | skipped followers included, a batch spends at most the base notional when the given allocations sum to at most 10,000 bps; at exactly 10,000 it spends all but dust exactly when they are whole |
| MatchHandler.LoneRecipient | fce-matching-engine/typescript/src/app/handlers.ts:362-365 | a lone recipient, beside no, an empty or a malformed follower list, is served exactly like a one-element list at 10,000 bps, with the whole base |
| MatchHandler.MockBatch | fce-matching-engine/typescript/src/app/handlers.ts:511-593 | the mock venues are all or nothing as well: success exactly when every target has a readable allocation and, if funded, an address, a configured venue and an amount that fits, and some target is funded; then one instruction per funded target in order, minting half the collateral or depositing all |
| MatchHandler.MockConservation | fce-matching-engine/typescript/src/app/handlers.ts:519-528 | with positive allocations, fractional ones included, the mock venues conserve the base amount in the same sense |
| MatchHandler.RecordIffDone | fce-matching-engine/typescript/src/app/handlers.ts:471-491 | a call leaves a record exactly when it succeeds |
| MatchHandler.LogHoldsSuccessfulCalls | fce-matching-engine/typescript/src/app/handlers.ts:478-489 | after any calls the log holds the last 10,000 records, one per successful call in completion order |
| Signals.ReadsAllEntries | fce-matching-engine/typescript/src/app/handlers.ts:231-241 | the targets are all listed entries, in order, each with its address and its number, exactly when all entries are valid; otherwise the first bad one decides |
| Signals.OrderFollowsSignal | fce-matching-engine/typescript/src/app/handlers.ts:203-360 | a signal is accepted exactly when asset, direction, size and recipients are valid and prices and tokens can be read; the order then says what the signal says, and otherwise the first check that fails decides |
| Signals.SwapServesSignal | fce-matching-engine/typescript/src/app/handlers.ts:355-491 | a swap signal answered with a payload: one instruction for each listed follower who is allotted anything, in list order, for exactly that amount, recipient, router, tokens, minimum output and deadline; and a record with the lead, direction and size of the signal |
| Signals.SwapSucceedsIff | fce-matching-engine/typescript/src/app/handlers.ts:222-476 | it is answered with a payload exactly when it is accepted, all allocations are finite, a router is configured, somebody is allotted something and everybody who is can be served |
| Signals.SwapRefusals | fce-matching-engine/typescript/src/app/handlers.ts:222-360 | a signal that is not accepted is answered by the first check that fails, and leaves no record |
| Signals.SwapStops | fce-matching-engine/typescript/src/app/handlers.ts:370-469 | an accepted signal that fails is answered by the first follower that stops the loop, with that follower's first reason, and leaves no record |
| Signals.MockServesSignal | fce-matching-engine/typescript/src/app/handlers.ts:498-593 | the same for the mock venues: amount, recipient, contract and operation of every instruction, and a record as BUY |
| Signals.MockSucceedsIff | fce-matching-engine/typescript/src/app/handlers.ts:507-571 | a mock-venue signal of valid size that names somebody succeeds exactly when no target stops the loop and one is allotted something |
| Signals.MockRefusals | fce-matching-engine/typescript/src/app/handlers.ts:503-574 | otherwise it fails by its size, by naming nobody, or by the first target that stops the loop |
| Signals.UnreadablePayloads | fce-matching-engine/typescript/src/app/handlers.ts:164-200 | a payload that cannot be decrypted, or is no object, is refused before anything else |
| Events.SortSorts | fce-ai-agent/typescript/src/app/scoring.ts:64 | the sort is ascending, keeps the elements, and keeps equal keys in order |
| Events.SortedUnique | fce-ai-agent/typescript/src/app/scoring.ts:136 | with distinct keys an ascending arrangement is unique |
| Events.SameSortIffSameByKey | fce-ai-agent/typescript/src/app/scoring.ts:136 | two lists sort to the same list exactly when each key has the same elements in the same order |
| Drawdown.MaxDrawdown | fce-ai-agent/typescript/src/app/scoring.ts:45-56 | for returns of at least -1 the one-pass result is the two-index maximum, in [0,1] |
| Drawdown.PeakAtLeastOne | fce-ai-agent/typescript/src/app/scoring.ts:46-52 | the running peak is at least 1, so the guard never fires |
| Drawdown.WorstIsMaxIffCoversNegative | fce-ai-agent/typescript/src/app/scoring.ts:45-56 | for any returns, the result is the maximum of all drops (E_i - E_j)/E_i with i <= j exactly when no drop from the lowest positive equity so far to a negative level exceeds it |
| Drawdown.WorstIsMaxDrawdown | fce-ai-agent/typescript/src/app/scoring.ts:45-56 | for returns of at least -1 the result bounds every such drop and is one of them |
| Drawdown.WorstInUnitInterval | fce-ai-agent/typescript/src/app/scoring.ts:45-56 | the result lies in [0,1] |
| Drawdown.NeverDecreases | fce-ai-agent/typescript/src/app/scoring.ts:49-54 | appending returns never lowers the result |
| Drawdown.ZeroIffNeverFalls | fce-ai-agent/typescript/src/app/scoring.ts:45-56 | the result is zero exactly when equity never falls |
| Scoring.ConsistencyScore | fce-ai-agent/typescript/src/app/scoring.ts:62-76 | the gap loop yields the positive gaps, and the score is in [0,1] |
| Scoring.PerfectIffEvenlySpaced | fce-ai-agent/typescript/src/app/scoring.ts:58-76 | the score is 1 exactly for three or more timestamps whose distinct values are evenly spaced |
| Scoring.ScoreLead | fce-ai-agent/typescript/src/app/scoring.ts:135-159 | the breakdown, with the score in 0..100 and untouched by the final clamp |
| Scoring.ClampIsIdentity | fce-ai-agent/typescript/src/app/scoring.ts:143-158 | the weighted sum of the four components always rounds into 0..100 |
| Scoring.ScoreIgnoresOrder | fce-ai-agent/typescript/src/app/scoring.ts:135-159 | for distinct timestamps the whole breakdown is independent of the input order |
| Scoring.ScoreDeterminedByTies | fce-ai-agent/typescript/src/app/scoring.ts:135-159 | lists in which each timestamp has the same events in the same order have the same breakdown |
| Scoring.TiesMatterThroughDrawdown | fce-ai-agent/typescript/src/app/scoring.ts:135-159 | permuted lists, ties included, agree in Sharpe-equivalent, consistency and completeness, and have the same breakdown exactly when their drawdowns agree (`TiesKeepTheirOrder` is a pair for which they do not) |
| ScoreLaws.BetterScoresHigher | fce-ai-agent/typescript/src/app/scoring.ts:106-159 | a lead at least as good in every component, a deeper drawdown being worse, scores at least as high |
| ScoreLaws.ScoreIsNearestToPoints | fce-ai-agent/typescript/src/app/scoring.ts:92-159 | the score is the whole number nearest to the points: 20 per unit of Sharpe-equivalent between 0 and 2, 25 for no drawdown down to 0 for a total one, 20 and 15 for full consistency and completeness |
| ScoreLaws.CornerScores | fce-ai-agent/typescript/src/app/scoring.ts:145-151 | with every component at its best or its worst, the best ones give exactly 40, 25, 20 and 15, all of them 100 |
| ScoreLaws.CompletenessCountsRecent | fce-ai-agent/typescript/src/app/scoring.ts:79-86 | completeness is a thirtieth per event of the last 30 days, at most 1 |
| ScoreLaws.BreakdownMeasures | fce-ai-agent/typescript/src/app/scoring.ts:34-56 | the Sharpe-equivalent is the annualized mean over the sample deviation of the returns in time order, by its square and sign, 0, or 10 for equal gains; the drawdown is their two-index maximum |
| ScoreLaws.ConsistencyLaw | fce-ai-agent/typescript/src/app/scoring.ts:62-76 | consistency is one minus the coefficient of variation of the gaps, cut off at 0; 0.3 for one or two timestamps |
| ScoreLaws.GapsAddUp | fce-ai-agent/typescript/src/app/scoring.ts:65-69 | the gaps add up to the span of the timestamps |
| ScoreLaws.LoneGain | fce-ai-agent/typescript/src/app/scoring.ts:135-159 | a single event without a loss scores 32 within 30 days and 31 after |
| Classify.DirectionAutocorr | fce-ai-agent/typescript/src/app/classify.ts:25-40 | the two loops compute the lag-1 autocorrelation, which is strictly between -1 and 1 for every event list |
| Classify.DenZeroIffAgree | fce-ai-agent/typescript/src/app/classify.ts:31-38 | the denominator is zero exactly when all directions agree |
| Classify.AutocorrStrictlyBounded | fce-ai-agent/typescript/src/app/classify.ts:25-40 | the bound, by 2xy <= x^2 + y^2 summed along the series |
| Classify.AlternationClosedForm | fce-ai-agent/typescript/src/app/classify.ts:25-40 | an alternating series of length n >= 3 has autocorrelation exactly -(n-1)/n |
| Classify.ConfidenceInRange | fce-ai-agent/typescript/src/app/classify.ts:42-92 | every confidence is in [0,1] and equals the value before the clamp |
| Classify.ConfidentIsInformed | fce-ai-agent/typescript/src/app/classify.ts:62-77 | a confidence above 0.35 never comes from the fallback branch |
| Classify.ShortListsFallBack | fce-ai-agent/typescript/src/app/classify.ts:62-77 | fewer than three events always end in the fallback branch |
| Classify.AlternatingIsMeanReversion | fce-ai-agent/typescript/src/app/classify.ts:42-77 | alternation in time order is mean reversion with confidence (n-1)/n |
| Classify.AgreeingIsMomentum | fce-ai-agent/typescript/src/app/classify.ts:45-64 | three or more equal directions are momentum with confidence 0.9, in whatever order they come in |
| Classify.SwapInvariant | fce-ai-agent/typescript/src/app/classify.ts:42-88 | swapping every BUY and SELL changes nothing |
| DirectionRuns.AutocorrClosedForm | fce-ai-agent/typescript/src/app/classify.ts:25-40 | any series of n >= 3 directions that do not all agree, with mean m, c changes and ends d_1, d_n: the autocorrelation is (n - 1 - 2c - (n+1)m^2 + m(d_1 + d_n)) / (n(1 - m^2)) |
| DirectionRuns.BalancedAutocorr | fce-ai-agent/typescript/src/app/classify.ts:25-40 | with as many BUYs as SELLs it is (n - 1 - 2c)/n |
| DirectionRuns.PersistenceClosedForm | fce-ai-agent/typescript/src/app/classify.ts:25-40 | k equal directions and then k of the other, n = 2k >= 4, have autocorrelation exactly (n-3)/n |
| ClassLaws.FeaturesDecide | fce-ai-agent/typescript/src/app/classify.ts:59-77 | for every list: one side throughout is momentum at 0.9, else an autocorrelation of at least 0.25 is momentum and of at most -0.15 mean reversion with that confidence; yield arbitrage exactly in between with steady sizes, small returns and five events; else 0.35, momentum exactly from 100 bps on |
| ClassLaws.SizesArePositiveOnes | fce-ai-agent/typescript/src/app/classify.ts:47 | the sizes counted are the positive ones, each as often as it occurs |
| ClassLaws.SizeCvLaw | fce-ai-agent/typescript/src/app/classify.ts:48-53 | the coefficient of variation squared, times the squared mean and the count, is the sum of squared deviations; 1 without a positive size |
| ClassLaws.MeanReturnLaw | fce-ai-agent/typescript/src/app/classify.ts:54-57 | the mean absolute return times the count is the sum of the absolute returns |
| ClassLaws.PersistentIsMomentum | fce-ai-agent/typescript/src/app/classify.ts:42-67 | persistence in time order is momentum with confidence (n-3)/n |
| ClassLaws.ShortListsByReturns | fce-ai-agent/typescript/src/app/classify.ts:74-76 | one or two events are momentum if every return is at least 100 bps, and mean reversion if none is |
| ClassLaws.SteadyTrades | fce-ai-agent/typescript/src/app/classify.ts:47-77 | five or more trades of one size with small returns, on both sides, are yield arbitrage at confidence 1 exactly while the autocorrelation is weak |
| ClassLaws.ChangesDecide | fce-ai-agent/typescript/src/app/classify.ts:25-67 | for as many BUYs as SELLs the number of changes c alone gives the autocorrelation (n - 1 - 2c)/n |
| Drift.Detector.constructor | fce-ai-agent/typescript/src/app/drift.ts:18 | the history starts empty |
| Drift.Detector.DetectDrift | fce-ai-agent/typescript/src/app/drift.ts:25-50 | the result is pushed onto the history and returned |
| Drift.Detector.ResetDriftHistory | fce-ai-agent/typescript/src/app/drift.ts:56-58 | the history is empty |
| Drift.AlternationDriftsFromMomentum | fce-ai-agent/typescript/src/app/drift.ts:32-36 | an alternating series drifts from a momentum baseline exactly for thresholds up to (n-1)/n |
| Drift.AgreementNeverDriftsFromMomentum | fce-ai-agent/typescript/src/app/drift.ts:32-36 | a same-direction series never drifts from a momentum baseline |
| ClassLaws.PersistenceDrift | fce-ai-agent/typescript/src/app/drift.ts:32-36 | a persistent series never drifts from a momentum baseline, and from a mean-reversion baseline exactly for thresholds up to (n-3)/n |
| Drift.ShortListsNeverDrift | fce-ai-agent/typescript/src/app/drift.ts:32-36 | above a threshold of 0.35 fewer than three events never flag drift |
| Drift.DriftIsInformed | fce-ai-agent/typescript/src/app/drift.ts:32-36 | above a threshold of 0.35 a flagged drift never rests on the fallback branch |
| Drift.FalsePositivesAreInformed | fce-ai-agent/typescript/src/app/drift.ts:60-62 | over any history the count is at most the number of calls classified by an informed branch |
| Drift.CountsFlaggedPositions | fce-ai-agent/typescript/src/app/drift.ts:60-62 | the count is the number of flagged positions in the history |

## Left out

- The Solidity contracts, the frontend, the deployment and validation scripts, health, governance and proxies.
- HTTP routing, RPC, WebSocket and XRPL clients, ABI encoding, RSA decryption, JSON parsing: their results are
  inputs, and calldata is an uninterpreted constructor over its arguments.
- `processAction`'s parsing of the request body and the fields of its reply other than data, status and error.
- `handleMirrorTopUpV1`, `scoreFromReturns`, the Go and Python ports of the handlers, the duplicate base layer of
  the agent, and the two payment-reference encoders.
- Texts of error messages; an error is its kind.
- Floating-point rounding: numbers are reals, so sums and quotients are exact.
- Letter case outside ASCII, as `toLowerCase` folds it.
- Registration.Registrar.SaveState: does not model a write that fails or tears, because the code only warns about it
  and goes on; no claim is made for such histories.
- The monitor's `message`, `vaultBalance` and `updatedAt` fields, unreadable status files, and submissions of the process
  itself that land after their run settled.
- In the matching handlers, the venue hint, the checksum and number coercions, feeds, tokens and the clock are
  inputs, and the clock is read once per call.
- That the follower allocations sum to 10,000 bps, or that `sizePct` is capped: the code checks neither.
- Registration.RegistrationSafe: covers resumes up to the first completed attempt, because a later fresh start runs
  the protocol over; Registration.FreshStartSafe covers what that adds.
- ActionServer.RepliesAreSequential: leaves the result of TOPUP_V1 to its inputs, because that handler is not modelled.
- Attestation.GateKeepsNoncesApart: does not bound the attempts of a request, so it holds for the five of the loop
  as well; that the node counts every nonce of this process among the pending ones is its assumption.
