# Engine residency: a verified model

The program keeps inference engines resident in worker processes. A coordinator owns a runtime that
admits serving uses, drains, fences and replaces engine incarnations, and saves and restores what is
durable; controllers send commands to workers through a router; workers and coordinator exchange
checksummed frames. This project models that core in Dafny and proves what it is for: exact use
accounting, a drain protocol that closes every use of the router before its worker cleans up,
admission fences that stay, recovery that trusts nothing it restored, replies that belong to their
commands, and two codecs that lose nothing and notice damage. Where the program misses a promise, the
model shows the case and proves exactly when the promise holds.

`dafny verify dfyconfig.toml` checks everything.

## Structure

- `Prelude`, `Errors`, `Records`: machine-width numbers, byte strings, error codes, durable records.
- `Fnv`: both FNV-1a checksums (section 2 of draft-eastlake-fnv) and why they see every one-byte change.
- `Wire`, `RecordCodec`, `Persistence`, `Blob`: the saved state. Every record has a wire form and a
  parser as functions with three laws; the classes `Writer` and `Reader` and their loops are proved
  against them.
- `Frame`, `Payload`: the frame codec, the receive buffer, and the key=value payloads.
- `Readiness` (module `ReadinessRules`) and `Standby` (module `StandbyPool`): the evaluator and the
  reconciliation, against order-free descriptions.
- `RuntimeState`: the runtime as one state and one function per mutating operation, with what each
  operation leaves alone in its contract. An operation that throws half way keeps what it had changed.
- `Runtime`: the class `EngineResidency` with the program's fields. Each method works in place, may
  modify only the fields it names, and is proved to do what the function of the same name says, for
  any iteration order of the hash tables.
- `Verdicts` and `Effects`: for each operation, its guards in order with their error codes, and what it leaves in
  the tables, both on the fields of the stored records.
- `RuntimeRuns`, `Accounting`, `Drains`, `BootFence`, `Registration`, `Permits`, `Currency`, `Slots`, `Admission`,
  `Generations`, `Clock`, `Conservative`, `Invalidation`, `Recovery`, `Duplicates`: theorems over every run, where
  a run is any list of calls with any arguments.
- `Economics`: how recovery costs are added up and compared.
- `Router`, `Settlement`, `Lockstep`, `Answers`, `DrainSafety`, `ForeignUses`, `WorkerRouter`, `Turns`: the router
  as interleaved steps, composed with the runtime and the worker's command loop, and what it does left alone.
- `Sessions`: the sessions that release uses, interleaved with all of that.

## Assumptions that the theorems state

- Identifier counters are 64-bit and wrap in the model as in the program. Theorems about uses, permits,
  attempts, activations and generations over runs of n calls ask that n more ids fit below 2^64
  (`FreshUses`, `FreshPermits`, `FreshAttempts`, `FreshActivations`, `FreshIncarnations`). With a wrapped
  counter a new record would replace an old one; `Accounting.AdmissionIsExact` says exactly when that breaks
  the count. `FenceIsForever`, the boot fence, conservative recovery, settlement and reply correlation need
  no such condition.
- `load` restarts the id counters at 1,000,000 and keeps uses, drains, permits and fences. Accounting
  and generation theorems therefore allow it only at the start of a run; `StartIsAccounted` covers
  that start. Admission fencing (`FenceIsForever`) and `WellKeyedRun` allow it anywhere.
- The router machine starts with empty channels, the worker having read the answer to its
  command-ready message. A send or a receive may fail at any step, and any other thread may call any
  runtime operation except `load` between two steps.

## Where the code and its documentation differ

The model follows the code.

- The documentation promises that physical cleanup never precedes the closure of an admitted use
  (src/coordinator/session.hpp:47-54). The dispatcher waits only for the uses that it acquired itself
  (`ForeignUses.CleanupWaitsForOwnUses`). A use that another caller acquired through ACQUIRE_USE can be open when
  the backend is released (`ForeignUses.ReleasedUnderUse`). `Sessions.DecidedAtRequest` gives the condition: none is
  open then exactly when none was at the drain request, releases already past their guards aside.
- It says a release under a drained authority is rejected. RELEASE_USE is, unless it read the drain state just
  before the request (src/coordinator/session.cpp:586; `Sessions.ReleaseUseIsExact`,
  `Sessions.LateReleasesRefused`, `Sessions.EarlyGuardReleases`). The runtime itself decides on the use record alone
  (`Accounting.UnderflowUnreachable`; README.md:61, src/runtime.cpp:538-560), which the dispatcher relies on. What
  is not said: a use of another caller that is open at the drain request can then never be closed, keeps its
  place in the counter, and holds the drain at ACTIVE_USE_REMAINING for good (`Sessions.DrainNeverCompletes`).
- It says recovery rejects duplicate identities. The decoder does not look for them
  (`Duplicates.DuplicatesAreAccepted`); the last record with an identity stays (`Duplicates.LastRecordStays`),
  and nothing is lost exactly when identities differ (`Duplicates.DuplicatesAreDropped`; README.md:73). The
  rejection of not-a-number costs is kept vacuously: the field is an integer
  (src/persistence/persistence.cpp:279).
- It says acquisition validates the activation authority. The activation generation of a request is
  stored and never compared (`Admission.ActivationNeverCompared`; README.md:61, src/runtime.cpp:500-527).
- It says surviving incarnations must revalidate in a new epoch (src/runtime.cpp:219, README.md:69). `activate`
  does not look at that: it readmits one on the old evidence (`Admission.OldEvidenceServesAgain`), exactly when it
  would have before (`Admission.ActivationSurvivesEpoch`); `Admission.EpochStopsAdmission` lists every way back.
  The coordinator advances only after a load, which leaves no such evidence (`Conservative.AdmitsOnNewEvidence`).
- It calls readiness profile-specific, and the readiness query refuses a profile of another engine
  (src/runtime.cpp:267). Acquire, activate and complete_preparation do not
  (`Admission.ProfileEngineNeverCompared`); `Admission.AdmittedUnreported` says exactly when they agree with the query.
- It says aggregation respects the model (README.md:69). The critical path is cut off where the sequential sum
  overflows (`Economics.CriticalPathMisses`), and is right exactly when nothing longer follows
  (`Economics.CriticalPathIsExact`; src/economics/economics.cpp:20-34).
- It promises at most one current activation of an exclusive slot. The slot names one incarnation, but the
  current flag of an activation record is never cleared: a second activation of a slot leaves two current
  records (`Currency.SecondActivationDoubles`, `Currency.RepeatedActivation`), and `Currency.SlotIsExact` gives
  the condition (README.md:65, src/runtime.cpp:464-495).
- It speaks of the current incarnation of an engine. Four operations set the flag without clearing that of
  others; `Currency.CurrencyIsExact` and `Currency.CurrencyOverRuns` say exactly when it stays unique
  (src/runtime.cpp:194, src/runtime.cpp:493).
- A second drain request moves a drained incarnation back to waiting for cleanup, exactly when its cleanup
  was acknowledged with no use open (`Drains.RequestIsExact`).
- `mark_running` and `revalidate` bring a fenced incarnation up again, exactly when called on one of the boot
  (`BootFence.UncheckedOperations`), and the fenced boots are not part of the saved state
  (`Recovery.FencesAreForgotten`).
- A rolled-back preparation attempt can still be completed (`Generations.RollbackDoesNotStop`).
- An optional requirement whose evidence is strong enough but incompatible still blocks, and only then
  (`ReadinessRules.OptionalBlocks`; src/readiness/readiness.cpp:127-159).
- The frame checksum covers the payload only; `Frame.SubstitutionAccepted` lists what goes unnoticed.

## Model

| member | source | states |
|---|---|---|
| Fnv.Fnv1a | src/persistence/persistence.cpp:18-22 | the loop computes the 64-bit FNV-1a hash of the bytes, with the code's own start value |
| Fnv.ProtoChecksum | src/protocol/frame.cpp:8-12 | the loop computes the 32-bit FNV-1a hash of the bytes |
| Fnv.StepInjective | src/persistence/persistence.cpp:20 | one hash step is injective in the running hash for a fixed byte, and in the byte for a fixed hash |
| Fnv.KnownConstants | src/protocol/frame.cpp:8-12 | the published start value and prime at 32 bits, and the published prime behind the code's own start at 64 |
| Fnv.HashSeesSubstitution | src/persistence/persistence.cpp:18-22 | replacing any one byte of any input changes the hash, at both widths |
| Persistence.Writer.Str | src/persistence/persistence.cpp:29-33 | a string is appended behind its length exactly when it has at most 1,000,000 bytes; otherwise the write is refused |
| Persistence.Writer.U64 | src/persistence/persistence.cpp:28 | eight little-endian bytes are appended |
| Persistence.Reader.Str | src/persistence/persistence.cpp:52-55 | a string is read only when its announced length is within the limit and present; the position moves past it and no further |
| Persistence.Reader.Code | src/persistence/persistence.cpp:68 | an enumeration code is accepted only up to the last enumerator |
| Persistence.Reader.Bool | src/persistence/persistence.cpp:180 | any non-zero byte reads as true |
| RecordCodec.CompatibilityLaws | src/persistence/persistence.cpp:70-71 | compatibility keys: reading a written value gives it back and leaves the rest; a read looks at nothing behind it; what is read respects the limits |
| RecordCodec.ProcessLaws | src/persistence/persistence.cpp:72-73 | the same three laws for process ids |
| RecordCodec.StateSetLaws | src/persistence/persistence.cpp:75-92 | the first two of these laws for the nine state dimensions |
| RecordCodec.StateSetIsCanonical | src/persistence/persistence.cpp:68-92 | and the limits: what is read is the one text that the writer makes of the value, so every code is that of an enumerator |
| RecordCodec.RequirementLaws | src/persistence/persistence.cpp:94-106 | the same three laws for profile requirements |
| RecordCodec.EvidenceLaws | src/persistence/persistence.cpp:108-154 | the same three laws for component evidence |
| RecordCodec.EngineLaws | src/persistence/persistence.cpp:156-197 | the same three laws for engine definitions with their two nested lists |
| RecordCodec.ProfileLaws | src/persistence/persistence.cpp:199-223 | the same three laws for readiness profiles with their requirement list |
| RecordCodec.IncarnationLaws | src/persistence/persistence.cpp:225-249 | the same three laws for incarnations |
| RecordCodec.ReplacementLaws | src/persistence/persistence.cpp:251-270 | the same three laws for replacement plans |
| RecordCodec.CostLaws | src/persistence/persistence.cpp:272-281 | the same three laws for cost components; the not-a-number check of the reader is vacuous, since it looks at an integer |
| Persistence.WriteEngine | src/persistence/persistence.cpp:156-174 | the writer appends the wire form of an engine definition, and fails exactly on an over-long string |
| Persistence.ReadEngine | src/persistence/persistence.cpp:176-197 | the reader yields what the wire form of an engine definition holds, or fails, and moves past exactly that |
| Persistence.WriteEvidence | src/persistence/persistence.cpp:108-124 | the writer appends the wire form of an evidence record, and fails exactly on an over-long string |
| Persistence.ReadEvidence | src/persistence/persistence.cpp:126-154 | the reader yields what the wire form of an evidence record holds, or fails |
| Persistence.WriteIncarnation | src/persistence/persistence.cpp:225-233 | the writer appends the wire form of an incarnation, and fails exactly on an over-long string |
| Persistence.ReadIncarnation | src/persistence/persistence.cpp:235-249 | the reader yields what the wire form of an incarnation holds, or fails |
| Persistence.ReadEngines | src/persistence/persistence.cpp:317 | the count is bounded by 1,000,000 and the loop reads that many engine records or fails |
| Wire.ListRoundTrip | src/persistence/persistence.cpp:288-293 | a counted list of lawful records reads back as itself |
| Blob.SerializePersistentState | src/persistence/persistence.cpp:283-299 | the method produces magic, version, counters, six lists and checksum, and refuses exactly when some string is over-long |
| Blob.DeserializePersistentState | src/persistence/persistence.cpp:301-327 | the method is total on all byte strings and returns the state or the first failing check in the source's order |
| Blob.HeaderLayout | src/persistence/persistence.cpp:283-289 | how a body starts: the four magic bytes, version 2, epoch, authority, registration counter and the number of engines, each little-endian |
| Blob.RoundTrip | src/persistence/persistence.cpp:283-327 | loading what was saved gives the state back exactly when every list count and the total size are within the reader's limits |
| Blob.NoStrictPrefix | src/persistence/persistence.cpp:316-324 | no strict prefix of a body that parses parses |
| Blob.SubstitutionRefused | src/persistence/persistence.cpp:301-307 | replacing any single byte of a saved blob, in the body or in the checksum, makes load refuse it |
| Blob.AcceptedIsSound | src/persistence/persistence.cpp:301-327 | every accepted blob carries its right checksum and yields a state within all limits |
| Frame.EncodeFrame | src/protocol/frame.cpp:29-38 | the frame of a message is appended to the buffer |
| Frame.DecodeFrame | src/protocol/frame.cpp:40-65 | one decode: a message and its length, need more, or one of five errors in the source's order |
| Frame.RoundTrip | src/protocol/frame.cpp:29-65 | an encoded message decodes to itself, whatever follows, exactly when its type is 1 to 27 and its payload at most 2^20 bytes |
| Frame.DecisionStable | src/protocol/frame.cpp:40-65 | a success or an error is not changed by more input |
| Frame.PrefixNeedsMore | src/protocol/frame.cpp:44-57 | every strict prefix of a frame means need more, never an error |
| Frame.SubstitutionRefused | src/protocol/frame.cpp:57-58 | any single changed byte in the payload or the checksum field is reported as a checksum mismatch |
| Frame.HeaderSubstitution | src/protocol/frame.cpp:45-53 | a changed byte in the magic or version is refused; one in type, epoch or authority is not covered by the checksum and yields a different message unless the type is unknown |
| Frame.LengthSubstitution | src/protocol/frame.cpp:52-63 | a changed byte of the length announces another number of bytes: too many are refused or waited for, fewer fail the checksum unless that part of the payload has the checksum of the whole |
| Frame.SubstitutionAccepted | src/protocol/frame.cpp:40-65 | for every position, exactly when a frame with one changed byte is accepted |
| Frame.TcpSocket.RecvFrame | src/protocol/net.cpp:65-76 | the buffering loop returns the first message of buffer and arriving chunks and keeps what follows it |
| Frame.RecvIsDecode | src/protocol/net.cpp:65-76 | receiving does what one decode of the whole stream does, however it is cut into chunks |
| Frame.ChunkingIrrelevant | src/protocol/net.cpp:65-76 | two ways of cutting the same bytes, well formed or not, give the same messages |
| Frame.StreamDelivers | src/protocol/net.cpp:65-76 | any list of messages sent back to back and delivered in any non-empty chunks arrives exactly, and the buffer ends empty |
| Payload.MakePayload | src/protocol/message.cpp:10-14 | one key=value line per field, in iteration order |
| Payload.ParsePayload | src/protocol/message.cpp:16-27 | the getline loop: lines without '=' are skipped, a later key wins |
| Payload.RoundTrip | src/protocol/message.cpp:10-27 | parsing what was made gives the map back exactly when no key holds '=' or a newline and no value a newline |
| Payload.ParseIsStable | src/protocol/message.cpp:16-27 | for every byte string, making and parsing the parsed map changes nothing |
| ReadinessRules.BestEvidence | src/readiness/readiness.cpp:9-29 | the loop returns the best matching record |
| ReadinessRules.BestIsFirstNewest | src/readiness/readiness.cpp:9-29 | the best record is the first lexicographic maximum by generation and time among the matches, and exists unless nothing matches |
| ReadinessRules.LaterRecordCounts | src/readiness/readiness.cpp:9-29 | one more record becomes the choice exactly when it is of the category and of the subject and namespace given, and is of a higher generation, or as high and later |
| ReadinessRules.BestIsLast | src/readiness/readiness.cpp:9-29 | with one generation and a strictly increasing clock it is the last match |
| Clock.LatestIsChosen | src/runtime.cpp:232-257 | in every run without load whose publications read an increasing clock, the best record of an incarnation is the matching one published last |
| ReadinessRules.EvaluateReadiness | src/readiness/readiness.cpp:54-216 | the flag-based evaluation equals the minimum of the single outcomes, with the verdict on each requirement, the four lists, the fallback and the headroom |
| ReadinessRules.ListsTellOutcome | src/readiness/readiness.cpp:75-207 | BLOCKED exactly when the lists name something missing or incompatible, STALE exactly when otherwise something stale, READY or DEGRADED exactly when those three lists are empty |
| ReadinessRules.OutcomeIsExact | src/readiness/readiness.cpp:75-207 | exactly when a profile is READY, DEGRADED, STALE or BLOCKED, from kinds, best records, strength, the two mismatches and freshness |
| ReadinessRules.ListsAreExact | src/readiness/readiness.cpp:75-183 | exactly which requirements each of the five lists names, in their order, from the same |
| ReadinessRules.StrengthIsOrder | src/readiness/readiness.cpp:32-51 | a state satisfies a required one exactly when both are among the first six enumerators and it is not the earlier |
| ReadinessRules.FreshUntil | src/readiness/readiness.cpp:162-172 | a limited record is fresh exactly from its observation until its age is used up, never if it was not observed |
| ReadinessRules.UpgradesMismatch | src/readiness/readiness.cpp:138-150 | moving one generation of an engine makes a fitting record mismatch exactly for requirements of that family |
| ReadinessRules.OutlookIsMinimum | src/readiness/readiness.cpp:192-207 | the outcome is no better than that of any single requirement and is one of them, in BLOCKED < STALE < DEGRADED < READY |
| ReadinessRules.MoreRequirements | src/readiness/readiness.cpp:75-183 | a superset of requirements never has a better outcome; order and repetition do not matter |
| ReadinessRules.AdmitsAll | src/readiness/readiness.cpp:192-207 | READY or DEGRADED exactly when every single requirement alone is READY or DEGRADED |
| ReadinessRules.TimePasses | src/readiness/readiness.cpp:162-172 | with all observations in the past, advancing the clock never improves the outcome |
| ReadinessRules.AdmissionRests | src/readiness/readiness.cpp:94-172 | READY or DEGRADED rests, for each requirement that is not optional, on evidence strong enough, fresh, compatible and of the engine's generation |
| ReadinessRules.OptionalBlocks | src/readiness/readiness.cpp:100-159 | an added optional requirement blocks exactly when its best record is strong enough and of another compatibility or generation, and otherwise changes nothing |
| ReadinessRules.RestoredNeverSatisfies | src/readiness/readiness.cpp:32-51 | REVALIDATION_REQUIRED satisfies no required state |
| StandbyPool.Reconcile | src/runtime.cpp:408-439 | for any hash order: the candidates are the smallest ids of the eligible set, as many as there are slots; the other slots are deferred; the blockers are the incarnations of the engine that are down or that no profile admits, and up to eight entries for the deficit; none counts as stale; eligible and deficit add up; a missing engine record throws |
| StandbyPool.AssignSlots | src/standby/standby.cpp:21-83 | sorting, the exclusions and the slot loop: candidates, deferred slots, stale and eligible count, deficit, and the blockers with their deficit entries |
| StandbyPool.SmallestIsUnique | src/standby/standby.cpp:31-66 | only one list fits the order-free description of the candidates |
| StandbyPool.StandbyIsExact | src/runtime.cpp:408-439 | who is eligible and who blocks, as conditions on health, lifecycle, activation and the outcome for some profile of the engine |
| StandbyPool.OrderDoesNotMatter | src/standby/standby.cpp:21-76 | all iteration orders give the same candidates, blockers, counts and deficit; candidates plus deferred slots equal the slots |
| Runtime.EngineResidency.DefineEngine | src/runtime.cpp:72-80 | the method changes the counter and the table as specified, also when the bound is hit after the counter moved |
| Runtime.EngineResidency.UpdateEngineConfig | src/runtime.cpp:82-96 | new generation, then every incarnation of the engine invalidated in table order until a generation is exhausted |
| Runtime.EngineResidency.DefineProfile | src/runtime.cpp:98-107 | as specified, with the counter moved before the engine is looked up |
| Runtime.EngineResidency.IssuePermit | src/runtime.cpp:110-128 | a permit for the present epoch, refused for a fenced boot or a full table |
| Runtime.EngineResidency.Register | src/runtime.cpp:130-177 | eight checks in order; then a new incarnation, current when no live one is, and the permit consumed |
| Runtime.EngineResidency.MarkRunning | src/runtime.cpp:179-186 | running and healthy, without a look at the fence |
| Runtime.EngineResidency.Revalidate | src/runtime.cpp:188-198 | nominal, prepared, running and current, then the next generation |
| Runtime.EngineResidency.FenceWorker | src/runtime.cpp:200-212 | the boot is recorded and each of its incarnations fenced, lost and not current |
| Runtime.EngineResidency.AdvanceEpoch | src/runtime.cpp:214-230 | epoch and authority advance, running incarnations must revalidate, slots are released; partial when exhausted |
| Runtime.EngineResidency.Publish | src/runtime.cpp:232-257 | evidence is stamped and appended unless fenced, of another epoch or over the bound; a backend record confirms the start |
| Runtime.EngineResidency.CreatePlan | src/runtime.cpp:282-314 | the guards and the recorded plan: generations, target, authority, and one step for each missing requirement within the bound, or a warmup |
| Runtime.EngineResidency.BeginPreparation | src/runtime.cpp:316-338 | guards on the stored plan, the incarnation and the active attempt; then a new attempt |
| Runtime.EngineResidency.CompletePreparation | src/runtime.cpp:358-386 | published with the next generation when the profile admits, failed otherwise |
| Runtime.EngineResidency.CancelPreparation | src/runtime.cpp:388-396 | cancelled unless already published |
| Runtime.EngineResidency.RollbackPreparation | src/runtime.cpp:398-405 | failed, but not cancelled |
| Runtime.EngineResidency.Activate | src/runtime.cpp:442-497 | nine checks in order, then the slot, a record with all its fields, the current flag and the activation |
| Runtime.EngineResidency.Acquire | src/runtime.cpp:500-536 | nine checks in order, then a new open use with all its fields and one more in the counter |
| Runtime.EngineResidency.Release | src/runtime.cpp:538-560 | closes the record with outcome, time and detail, lowers the counter, recounts, and moves a fenced drain without open uses |
| Runtime.EngineResidency.RequestDrain | src/runtime.cpp:563-579 | fences admission, drains the incarnation and sets the phase from the recount |
| Runtime.EngineResidency.AcknowledgeCleanup | src/runtime.cpp:581-591 | records the acknowledgement and completes a fenced drain without open uses |
| Runtime.EngineResidency.CountRemaining | src/runtime.cpp:548-551 | the recount loop counts exactly the open uses of one incarnation, modulo 2^32 |
| Runtime.EngineResidency.BeginReplacement | src/runtime.cpp:601-619 | five checks in order, then a plan in the preparing phase |
| Runtime.EngineResidency.CommitCutover | src/runtime.cpp:621-642 | the old side loses authority and admission, then the candidate becomes current; correct also when both are one record |
| Runtime.EngineResidency.RetireOldIncarnation | src/runtime.cpp:644-657 | the old incarnation is retired and the plan complete |
| Runtime.EngineResidency.InvalidateComponents | src/runtime.cpp:660-670 | all records of the incarnation distrusted, then the next generation |
| Runtime.EngineResidency.RecordCosts | src/runtime.cpp:672-677 | cost samples are appended within the bound, and their aggregated cost is returned |
| Economics.Aggregate | src/economics/economics.cpp:9-53 | sequential cost is the sum of all components, cut at the largest 64-bit number; the parallel cost is the longest of those read before the sum overflows |
| Economics.CriticalPathIsExact | src/economics/economics.cpp:20-34 | the parallel cost is the longest of all components exactly when none behind the overflow is longer, in particular whenever the sum fits |
| Economics.CriticalPathMisses | src/economics/economics.cpp:20-34 | two components whose sum overflows hide any longer one behind them |
| Economics.Compare | src/economics/economics.cpp:55-79 | the first of the cheapest alternatives, ties going to the lower action |
| Runtime.EngineResidency.Serialize | src/runtime.cpp:684-698 | the blob of the five tables, each in some iteration order |
| Runtime.EngineResidency.Load | src/runtime.cpp:700-734 | all fields replaced after the whole blob was accepted; nothing changed when it was refused |
| RuntimeRuns.Step | src/runtime.cpp:72-734 | for each operation, which of uses, drains, evidence, definitions, fences, attempts and activations it leaves alone, that no fenced-out incarnation comes up except through three operations and load, and that none becomes current except through four of them |
| RuntimeRuns.KeyedStep | src/runtime.cpp:172 | every operation keeps each incarnation under its own identity |
| Currency.CurrencyIsExact | src/runtime.cpp:130-642 | starting from one current incarnation per engine, register, revalidate, activate and cutover keep that exactly when no other incarnation of the engine is current, apart from the old side of a cutover; every other operation keeps it |
| Currency.CurrencyOverRuns | src/runtime.cpp:130-734 | over every run: no engine ever has two current incarnations exactly when each of those four calls is made while no other is current |
| Currency.RevalidationsAccumulate | src/runtime.cpp:188-198 | in every state two revalidations leave any two incarnations of an engine current together |
| Currency.SlotIsExact | src/runtime.cpp:464-495 | a successful activation keeps one current record per exclusive slot exactly when no current record names its slot yet |
| Currency.ActivationsKept | src/runtime.cpp:476-495 | in every run without load activation records stay as they were made, so no current flag is ever cleared |
| Currency.SecondActivationDoubles | src/runtime.cpp:464-495 | once a current record names a slot, the next successful activation of that slot, however much later, leaves two |
| Currency.RepeatedActivation | src/runtime.cpp:442-497 | a request with a slot that succeeds also succeeds when repeated at once, and then the slot has two current records |
| Slots.SlotVerdict | src/runtime.cpp:459-474 | a request that would pass without a slot passes with one exactly when the slot is free, its own, or its holder is unknown, fenced, lost, failed, retired, revalidating or awaiting authority; otherwise it conflicts |
| Slots.HolderKeepsSlot | src/runtime.cpp:442-497 | in every run without load the holder of a slot keeps it unless at some call it was dead and another was activated in the slot, or a new epoch freed all slots |
| Slots.LiveHolderStays | src/runtime.cpp:459-474 | a request for the slot of a live holder is refused and changes nothing |
| Verdicts.ActivateVerdict | src/runtime.cpp:442-474 | activation succeeds exactly when nine conditions hold, and otherwise throws the code of the first that fails |
| Effects.ActivateEffect | src/runtime.cpp:475-497 | what a successful activation leaves in incarnation, slots and records, everything else as it was |
| Accounting.CountIsExact | src/runtime.cpp:519-547 | in every run the counter equals the number of unreleased records and never exceeds max_active_uses |
| Accounting.AdmissionIsExact | src/runtime.cpp:520-533 | with wrapping ids, one admission keeps the counter exact exactly when the new id is not that of an open use |
| Verdicts.AcquireVerdict | src/runtime.cpp:500-519 | a use is admitted exactly when nine conditions hold, and otherwise the code of the first that fails is thrown |
| Accounting.CountIsSum | src/runtime.cpp:519-551 | in every run the counter is the sum of the open uses of all incarnations of the table, in any listing order |
| Accounting.UnderflowUnreachable | src/runtime.cpp:538-547 | a release does what its three checks say, whatever the drains and the authority are: the underflow branch is never taken |
| Accounting.ReleasedOnce | src/runtime.cpp:543 | after a use was released, in every continuation each further release of it is refused as duplicate and changes nothing |
| Accounting.StartIsAccounted | src/runtime.cpp:700-734 | a new runtime, and one that was loaded before any use was admitted, satisfies the accounting invariants |
| Drains.FenceIsForever | src/runtime.cpp:506-507 | once admission is fenced, in every continuation, load included, every acquire is refused and no use is added |
| Drains.FencesAdmission | src/runtime.cpp:563-635 | a successful drain request and a cutover away both fence admission |
| Drains.RequestIsExact | src/runtime.cpp:563-579 | a drain request leaves the phase that uses and acknowledgement call for, except exactly when cleanup was already acknowledged with no use open: then DRAINED falls back to waiting for cleanup |
| Drains.DrainOutcome | src/runtime.cpp:538-591 | after a drain request the final phase of any run is determined by which uses the run releases and whether cleanup is acknowledged, not by the order of calls nor by calls on other incarnations |
| Drains.DrainedIsEarned | src/runtime.cpp:538-642 | in every run without load, with repeated requests and cutovers, an incarnation is DRAINED only while it is fenced, its cleanup is acknowledged and none of its uses is open |
| BootFence.FenceEstablishes | src/runtime.cpp:200-212 | after fence_worker the boot is fenced out |
| BootFence.FencedForGood | src/runtime.cpp:110-257 | in every continuation without load, and without mark_running or revalidate on that boot, no incarnation of a fenced boot is current or running, none is added, and none gains evidence |
| BootFence.FencedOutRefuses | src/runtime.cpp:110-642 | acquire, activate, cutover, publish, register and permit are all refused for a fenced-out boot |
| BootFence.UncheckedOperations | src/runtime.cpp:179-198 | mark_running and revalidate break the fence exactly when called on an incarnation of the boot |
| Registration.BootsAreExclusive | src/runtime.cpp:140-147 | in every run of the operations that sessions reach, a worker boot has at most one incarnation that is starting or running |
| Registration.StartingIsUnchecked | src/runtime.cpp:179-198 | mark_running and revalidate keep that exactly when no other incarnation of the boot is up |
| Registration.PermitRegistersOnce | src/runtime.cpp:130-177 | after a registration with a permit succeeded, none does in any continuation without load |
| Registration.PermitsAreSpent | src/runtime.cpp:133-138 | in every continuation without load a consumed permit, or one of an earlier epoch, registers nothing |
| Permits.EveryIncarnationHasItsPermit | src/runtime.cpp:110-177 | in every run from a new runtime without load, each incarnation has a consumed permit of its own for the same worker boot, epoch and authority |
| Verdicts.RegisterVerdict | src/runtime.cpp:130-158 | registration succeeds exactly when eight conditions on permit, record and tables hold, and otherwise throws the code of the first that fails |
| Effects.RegisterEffect | src/runtime.cpp:159-177 | the record that is stored, when it is current, and that everything else is as it was |
| Admission.EpochStopsAdmission | src/runtime.cpp:214-230 | in every continuation of an epoch advance, load included, a use is admitted only on an incarnation that a registration, revalidation, activation or cutover made current since, or that was current at the advance without running; right after it nothing is admitted |
| Admission.BecomesCurrentBy | src/runtime.cpp:130-642 | who was not current becomes so exactly by one of these four calls passing its checks on it |
| Admission.ActivationSurvivesEpoch | src/runtime.cpp:214-230 | in the new epoch an activation with the new authority passes exactly when it would have passed before with the slots free |
| Admission.OldEvidenceServesAgain | src/runtime.cpp:442-518 | so an incarnation that the advance sent to revalidation is activated and admits a use on unchanged evidence while it still waits for revalidation |
| Admission.RecoveryNeverCompared | src/runtime.cpp:442-518 | neither activation nor admission depends on the recovery state of the incarnation |
| Admission.ProfileEngineNeverCompared | src/runtime.cpp:358-518 | acquire, activate and complete_preparation give the same verdict for a profile of any other engine |
| Admission.AdmittedUnreported | src/runtime.cpp:260-280 | what is admitted or activated for a profile is reported as serving by the readiness query exactly when the profile belongs to the engine and the incarnation does not wait for revalidation |
| Admission.ActivationNeverCompared | src/runtime.cpp:500-518 | admission does not depend on activation records, slots, the activation state, or the activation generation and execution id of the request |
| Generations.GenerationsNeverDrop | src/runtime.cpp:82-670 | in every run without load no incarnation disappears, changes identity or lowers its readiness generation |
| Generations.StaleForever | src/runtime.cpp:449-508 | a generation below the present one never again admits a use or activates, in any continuation without load |
| Generations.ConfigurationRaises | src/runtime.cpp:82-96 | a new configuration raises by one exactly the generations of the engine's incarnations, for any iteration order |
| Generations.PublicationRaises | src/runtime.cpp:373-381 | completing a checked attempt raises the generation exactly when the profile is READY or DEGRADED |
| Generations.TokensDie | src/runtime.cpp:82-670 | a token that names the generation before a revalidation, invalidation, publication or new configuration never again admits a use or activates, in any continuation without load |
| Generations.CancelledForGood | src/runtime.cpp:358-396 | after a cancellation, in every continuation without load, completing the attempt is refused and changes nothing |
| Generations.RollbackDoesNotStop | src/runtime.cpp:358-405 | a rolled-back attempt can be completed exactly as if nothing had happened |
| Conservative.ServesOnNewEvidence | src/runtime.cpp:715-725 | at any time after a load, READY or DEGRADED rests for each requirement that is not optional on evidence published after the load |
| Conservative.AdmitsOnNewEvidence | src/runtime.cpp:508-518 | hence no use is admitted after a load on restored evidence |
| Invalidation.InvalidationIsExact | src/runtime.cpp:660-670 | invalidation distrusts every record of the incarnation, with the reason, and touches no record of another |
| Invalidation.NothingServesNow | src/runtime.cpp:660-670 | right after it no profile with a binding requirement is READY or DEGRADED on the incarnation |
| Invalidation.ServesOnLaterEvidence | src/runtime.cpp:358-518 | in every continuation without load, a use admitted, an activation passed or an attempt published on it rests, for each binding requirement, on evidence published after the invalidation |
| Verdicts.CompletePreparationVerdict | src/runtime.cpp:358-386 | an attempt is completed exactly when eight conditions hold, and otherwise the code of the first that fails is thrown |
| Effects.CompletePreparationEffect | src/runtime.cpp:373-386 | a completed attempt is published with the next generation or fails, as the profile admits, and frees the incarnation |
| Effects.CommitCutoverEffect | src/runtime.cpp:621-642 | the old side loses authority and admission, the candidate becomes current and runs, every other record is as it was |
| Effects.RetirementEffect | src/runtime.cpp:644-657 | the old incarnation is retired, lost and not current, every other record is as it was, and the plan is complete |
| Recovery.RestartIsConservative | src/runtime.cpp:684-734 | for any iteration order of the tables, loading what was saved rebuilds engines, profiles, replacements, costs, counters and per-incarnation evidence order, changing only recovery, current flag, activation, preparation and evidence state |
| Recovery.SavedAndLoaded | src/runtime.cpp:684-734 | the same through the bytes, whenever the format can hold the state |
| Recovery.NothingServesAfterRestart | src/runtime.cpp:717-725 | each restored incarnation is not current, inactive and revalidating; generation, registration and lifecycle are kept; each record keeps everything but its state |
| Recovery.RestartTwice | src/runtime.cpp:684-734 | restarting a restarted runtime changes no record |
| Recovery.FencesAreForgotten | src/runtime.cpp:684-734 | the set of fenced boots is not saved: a boot is fenced after a restart exactly when the loading runtime had it fenced, so a new runtime issues permits to every boot |
| Duplicates.DuplicatesAreDropped | src/runtime.cpp:700-734 | load keeps every saved engine, profile, incarnation or replacement exactly when no two of the list have one identity |
| Duplicates.LastRecordStays | src/runtime.cpp:712-730 | of several records with one identity the last one in the list stays |
| Duplicates.DuplicatesAreAccepted | src/persistence/persistence.cpp:301-327 | a blob with two plans of one identity is accepted as it is, whatever cost numbers it holds, and the second plan alone is left |
| Recovery.WellKeyedRun | src/runtime.cpp:72-734 | in every run every record stays under its own identity, which is what the restart theorems need |
| WorkerRouters.WorkerRouter.Enqueue | src/coordinator/session.cpp:120-150 | accepted exactly when ready, alive and fewer than 64 wait; otherwise answered at once |
| WorkerRouters.WorkerRouter.TakeFront | src/coordinator/session.cpp:187-189 | first in, first out |
| WorkerRouters.WorkerRouter.Fail | src/coordinator/session.cpp:197-216 | the router is dead, the queue empty, and each swapped-out promise fulfilled with an error |
| WorkerRouters.FailSteps | src/coordinator/session.cpp:197-216 | left alone, the machine's failure steps do what Fail does |
| WorkerRouters.CommandLoop | src/tools/worker_main.cpp:123-185 | one reply per message in order, up to and including a drain or up to a shutdown, an error for an unknown type; the backend ends released |
| WorkerRouters.LoopServes | src/tools/worker_main.cpp:123-170 | on commands alone the loop answers exactly those served, up to and including the first drain |
| WorkerRouters.MachineServes | src/tools/worker_main.cpp:123-170 | the machine's worker, left alone, answers the same commands |
| Settlement.PromisesAreKept | src/coordinator/session.cpp:120-216 | from a new router on, in every interleaving, accepted commands are, each exactly once, settled, in flight or queued; at most 64 are queued; every ticket is rejected, accepted or in the lock |
| Settlement.NothingLeftBehind | src/coordinator/session.cpp:192-216 | when the dispatcher of a router has ended, after whatever happened, every accepted command was answered exactly once, and later ones are refused |
| Lockstep.RepliesCorrelate | src/coordinator/session.cpp:273-343 | from a new router on, in every interleaving, at most one frame is under way and, while the dispatcher waits, it belongs to the command just sent; commands reported as done were done |
| Lockstep.ReplyMatches | src/coordinator/session.cpp:286-334 | in every reachable state the reply that can be read carries the command id just sent, of a command the worker has finished; for a drain the backend is released |
| Answers.AnswersTellTheTruth | src/coordinator/session.cpp:218-343 | from a new router on, in every interleaving, a promise is answered with success exactly when the dispatcher read the reply to its command and, for a drain, the runtime recorded the cleanup |
| Turns.ExecuteLeftAlone | src/coordinator/session.cpp:253-312 | an EXECUTE without interference succeeds exactly when epoch and authority are present, the incarnation is not fenced and the runtime admits; then it was sent and its use is released as completed; otherwise it failed, nothing was sent and nothing changed |
| Turns.ExecutedUse | src/coordinator/session.cpp:218-250 | that leaves one more use, closed as completed, every other use as it was, and as many open uses as before |
| Turns.DrainLeftAlone | src/coordinator/session.cpp:313-343 | a DRAIN without interference: stale ones fail and are never sent; otherwise the backend is released and the answer is success exactly when the runtime knows of the drain |
| Turns.FailureLeftAlone | src/coordinator/session.cpp:280-300 | a transfer that fails during an EXECUTE releases its use as failed, kills the router and answers everything with a failure |
| DrainSafety.DrainProtocol | src/coordinator/session.cpp:253-434 | from a new router on, in every interleaving: after a DRAIN only DRAINs are sent; from the moment one is about to be sent admission is fenced and no use the router acquired is open; no EXECUTE runs on a released backend; cleanup is acknowledged only after the release |
| ForeignUses.CleanupWaitsForOwnUses | src/coordinator/session.hpp:47-54 | the exact condition for uses of any caller: from the moment a DRAIN is about to be sent, no use of the incarnation is open exactly when all those that the router did not acquire are released |
| Sessions.DecidedAtRequest | src/coordinator/session.cpp:313-595 | whether other callers' uses are open when the backend is released is decided when admission is fenced: from then on none is added and only releases that had read their guards before close one; with none of these in flight, no use is open when a DRAIN is about to be sent, or later, exactly when no use of others was open at the fence |
| Sessions.DrainNeverCompletes | src/coordinator/session.cpp:582-595 | such a use, open at the drain request with no release in flight, stays open and counted in every continuation, and the drain stays at ACTIVE_USE_REMAINING |
| Sessions.ReleaseUseIsExact | src/coordinator/session.cpp:582-595 | RELEASE_USE without interference succeeds exactly when the incarnation is neither fenced nor drained and the use is open and its own; otherwise nothing changes |
| Sessions.LeftAlone | src/coordinator/session.cpp:582-595 | the session's guard reads and its call, as separate steps with nobody in between, are that |
| Sessions.LateReleasesRefused | src/coordinator/session.cpp:586 | after admission was fenced, in every interleaving a session's release is accepted only if it had read its guards before |
| Sessions.EarlyGuardReleases | src/coordinator/session.cpp:586-590 | and then it is accepted under the fence |
| ForeignUses.ReleasedUnderUse | src/coordinator/session.cpp:313-434 | whenever somebody else holds a use, a drain request, its command and the worker's turn end with the backend released and that use open |

## Left out

- Sockets, threads, time-outs and files: sends and receives are steps that may fail; `recv_frame` is modelled on the chunks that arrive.
- The 60-second waits of the routes: a controller that stops waiting leaves its command to the dispatcher, as in the program.
- The compute backends: the worker's backend is a released flag.
- Diagnostic texts, detail and reason strings, and the result records of queries other than readiness and standby. A label is the requirement it names, a blocker text the incarnation or deficit it names.
- `step_preparation`: it counts steps, which neither readiness, publication nor admission looks at.
- The generation field of use tokens, which is always 1; pool, name and flags of standby slots.
- The version field of the saved state: the reader accepts one value only.
- The clock: each operation reads it once in the model; the program may read it twice within one call.
- `run_session`: RELEASE_USE is modelled with its guards. The other messages are the runtime operations they reach, as arbitrary calls of other threads; their guards (src/coordinator/session.cpp:490-565) can only refuse more.
- The fence check of `route_drain` before its drain request: it can only refuse more.
- Worker registration with the router registry, `adopt`, and the shutdown of sessions.
- Blob.DeserializePersistentState: the diagnostic texts for a bad count and for a bad record are one error here; which inputs are refused is not affected.
- Accounting.CountIsExact: assumes that use ids do not wrap around within the run, because a wrapped id replaces a record.
- Generations.GenerationsNeverDrop: assumes that incarnation ids do not wrap around within the run, for the same reason.
- Generations.CancelledForGood: assumes that attempt ids do not wrap around within the run, for the same reason.
- Currency.ActivationsKept: assumes that activation ids do not wrap around within the run, for the same reason.
- Registration.PermitsAreSpent: assumes that permit ids do not wrap around within the run, for the same reason.
- Sessions.DecidedAtRequest: assumes that use ids do not wrap around within the run, for the same reason.
- Sessions.DrainNeverCompletes: assumes the same.
- Drains.DrainedIsEarned: assumes the same.
- Permits.EveryIncarnationHasItsPermit: assumes that permit and incarnation ids do not wrap around within the run, for the same reason.
- Generations.TokensDie: assumes that incarnation ids do not wrap around within the run, for the same reason.
- Registration.PermitRegistersOnce: assumes that permit ids do not wrap around within the run, for the same reason.
- DrainSafety.DrainProtocol: assumes that use ids do not wrap around within the run, for the same reason.
- Drains.DrainOutcome: assumes that use ids do not wrap around within the run, for the same reason.
