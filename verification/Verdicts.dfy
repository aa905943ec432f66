/** When each operation of runtime.cpp succeeds, and which error it throws otherwise: its guards in their
    order, as conditions on the arguments and the stored records. */
module Verdicts {
  import opened Prelude
  import opened Errors
  import opened Records
  import opened RuntimeState
  import opened RuntimeRuns
  import opened Generations
  import opened Slots

  datatype Guard = Guard(holds: bool, code: ErrorCode)

  /** The code of the first guard that does not hold; no operation has more than nine. */
  function FirstFailing(gs: seq<Guard>): Option<ErrorCode>
    requires |gs| <= 9
  {
    if Fails(gs, 0) then Some(gs[0].code)
    else if Fails(gs, 1) then Some(gs[1].code)
    else if Fails(gs, 2) then Some(gs[2].code)
    else if Fails(gs, 3) then Some(gs[3].code)
    else if Fails(gs, 4) then Some(gs[4].code)
    else if Fails(gs, 5) then Some(gs[5].code)
    else if Fails(gs, 6) then Some(gs[6].code)
    else if Fails(gs, 7) then Some(gs[7].code)
    else if Fails(gs, 8) then Some(gs[8].code)
    else None
  }

  predicate Fails(gs: seq<Guard>, i: nat)
  {
    i < |gs| && !gs[i].holds
  }

  /** The operation succeeds exactly when all guards hold; otherwise it throws the code of the first that
      does not. */
  predicate Decides(gs: seq<Guard>, r: Ret)
    requires |gs| <= 9
  {
    match FirstFailing(gs)
    case None => r.Done?
    case Some(code) => r == Threw(code)
  }

  predicate Known(s: State, id: u64)
  {
    id in s.incarnations
  }

  predicate Current(s: State, id: u64)
  {
    id in s.incarnations && s.incarnations[id].isCurrent
  }

  predicate RunningAt(s: State, id: u64)
  {
    id in s.incarnations && s.incarnations[id].state.lifecycle == Running
  }

  /** Fenced by health or by registration. */
  predicate FencedAt(s: State, id: u64)
  {
    id in s.incarnations
    && (s.incarnations[id].state.health == FencedHealth || s.incarnations[id].state.registration == FencedRegistration)
  }

  predicate GenerationIs(s: State, id: u64, generation: u64)
  {
    id in s.incarnations && s.incarnations[id].readinessGeneration == generation
  }

  /** The next generation is still a 64-bit number. */
  predicate CanAdvance(s: State, id: u64)
  {
    id in s.incarnations && s.incarnations[id].readinessGeneration < 0xffff_ffff_ffff_ffff
  }

  predicate EngineDefined(s: State, id: u64)
  {
    id in s.incarnations && s.incarnations[id].engineId in s.engines
  }

  predicate AdmitsNow(s: State, id: u64, profileId: u64, now: u64)
  {
    && profileId in s.profiles && EngineDefined(s, id)
    && OutlookOf(s, s.profiles[profileId], s.incarnations[id], now).Admits()
  }

  predicate BootIsFenced(s: State, worker: u64, boot: u64)
  {
    worker in s.fenced && boot in s.fenced[worker]
  }

  /* ---- definitions ---- */

  lemma DefineEngineVerdict(s: State, def: EngineDefinition)
    ensures Decides([Guard(def.engineId != 0, InvalidArgument),
                     Guard(|s.engines| < s.options.maxEngines, BoundsExceeded)], DefineEngine(s, def).1)
  {
    hide SameServing, SameEvidence, KeepsAuthority, KeepsFences, Continues, AddsNoCurrent, KeepsAttempts,
      SameActivations;
  }

  lemma UpdateEngineConfigVerdict(s: State, engineId: u64, generation: u64, order: seq<u64>)
    requires Enumerates(order, s.incarnations.Keys)
    ensures var advance := forall k :: k in s.incarnations && s.incarnations[k].engineId == engineId ==>
                             CanAdvance(s, k);
            Decides([Guard(engineId in s.engines, UnknownEngine),
                     Guard(engineId in s.engines && generation > s.engines[engineId].configGeneration, StaleGeneration),
                     Guard(advance, GenerationExhausted)], UpdateEngineConfig(s, engineId, generation, order).1)
  {
    InvalidateAllOnce(s.incarnations, order, s.incarnations.Keys, engineId);
    InvalidateAllThrows(s.incarnations, order, engineId);
    hide InvalidateAll, Enumerates, SameServing, SameEvidence, KeepsAuthority, KeepsFences, Continues, AddsNoCurrent,
      KeepsAttempts, SameActivations;
  }

  lemma {:induction false} InvalidateAllThrows(incs: map<u64, Incarnation>, order: seq<u64>, engineId: u64)
    ensures var r := InvalidateAll(incs, order, engineId).1; r.Done? || r == Threw(GenerationExhausted)
    decreases |order|
  {
    if order != [] {
      var k := order[0];
      hide InvalidateOne;
      if k !in incs || incs[k].engineId != engineId {
        InvalidateAllThrows(incs, order[1..], engineId);
      } else if !Exhausted(incs[k].readinessGeneration) {
        InvalidateAllThrows(incs[k := InvalidateOne(incs[k])], order[1..], engineId);
      }
    }
  }

  lemma DefineProfileVerdict(s: State, profile: ReadinessProfile)
    ensures Decides([Guard(profile.engineId in s.engines, UnknownEngine)], DefineProfile(s, profile).1)
  {
    hide SameServing, SameEvidence, KeepsAuthority, KeepsFences, Continues, AddsNoCurrent, KeepsAttempts,
      SameActivations;
  }

  /* ---- registration and authority ---- */

  lemma IssuePermitVerdict(s: State, worker: u64, boot: u64)
    ensures Decides([Guard(boot != 0, InvalidArgument),
                     Guard(!BootIsFenced(s, worker, boot), FencedWorker),
                     Guard(|s.permits| < s.options.maxPermits, BoundsExceeded)], IssuePermit(s, worker, boot).1)
  {
    hide SameDefinitions, SameServing, SameEvidence, KeepsFences, Continues, AddsNoCurrent, KeepsAttempts,
      SameActivations;
  }

  /** Some incarnation of the worker boot is neither lost nor failed nor retired. */
  predicate BootInUse(s: State, worker: u64, boot: u64)
  {
    exists k :: k in s.incarnations && s.incarnations[k].workerId == worker && s.incarnations[k].workerBoot == boot
                && s.incarnations[k].state.lifecycle !in {Lost, Failed, Retired}
  }

  lemma InUse(s: State, worker: u64, boot: u64)
    ensures BootInUse(s, worker, boot) <==> BootTaken(s, worker, boot)
  {
  }

  /** The permit exists, is unspent, names the same worker boot and the present epoch; the boot is not fenced and
      not in use; the engine is defined; and there is room. */
  lemma RegisterVerdict(s: State, inc: Incarnation, permitId: u64, now: u64)
    ensures var known := permitId in s.permits;
            Decides([Guard(known, RegistrationRejected),
                     Guard(known && !s.permits[permitId].consumed, RegistrationRejected),
                     Guard(known && s.permits[permitId].workerId == inc.workerId
                           && s.permits[permitId].workerBoot == inc.workerBoot, RegistrationRejected),
                     Guard(known && s.permits[permitId].epoch == s.epoch, StaleEpoch),
                     Guard(!BootIsFenced(s, inc.workerId, inc.workerBoot), FencedWorker),
                     Guard(inc.engineId in s.engines, UnknownEngine),
                     Guard(!BootInUse(s, inc.workerId, inc.workerBoot), RegistrationRejected),
                     Guard(|s.incarnations| < s.options.maxIncarnations, BoundsExceeded)],
                    Register(s, inc, permitId, now).1)
  {
    InUse(s, inc.workerId, inc.workerBoot);
    RegisterTells(s, inc, permitId, now);
    hide Register, BootTaken, BootInUse;
  }

  lemma RegisterTells(s: State, inc: Incarnation, permitId: u64, now: u64)
    ensures Register(s, inc, permitId, now).1 ==
            match RegisterCheck(s, inc, permitId)
            case Pass => Done(Bump(Bump(s.ids.incarnation)))
            case Fail(code) => Threw(code)
  {
    hide RegisterCheck, EngineServed, KeepsAuthority, SameDefinitions, SameServing, SameEvidence, KeepsFences,
      KeepsAttempts, SameActivations;
  }

  lemma MarkRunningVerdict(s: State, id: u64, now: u64)
    ensures Decides([Guard(Known(s, id), UnknownIncarnation)], MarkRunning(s, id, now).1)
  {
    hide RunOne, KeepsAuthority, SameDefinitions, SameServing, SameEvidence, KeepsFences, AddsNoCurrent, KeepsAttempts,
      SameActivations;
  }

  lemma RevalidateVerdict(s: State, id: u64)
    ensures Decides([Guard(Known(s, id), UnknownIncarnation), Guard(CanAdvance(s, id), GenerationExhausted)],
                    Revalidate(s, id).1)
  {
    hide RevalidateOne, KeepsAuthority, SameDefinitions, SameServing, SameEvidence, KeepsFences, KeepsAttempts,
      SameActivations;
  }

  lemma AdvanceEpochVerdict(s: State)
    ensures Decides([Guard(s.epoch < 0xffff_ffff_ffff_ffff, GenerationExhausted),
                     Guard(s.authority < 0xffff_ffff_ffff_ffff, GenerationExhausted)], AdvanceEpoch(s).1)
  {
    hide KeepsAuthority, SameDefinitions, SameServing, SameEvidence, KeepsFences, Continues, AddsNoCurrent,
      KeepsAttempts, SameActivations;
  }

  /* ---- evidence ---- */

  lemma PublishVerdict(s: State, ev: Evidence, now: u64)
    ensures var id := ev.origin.incarnationId;
            var bootFenced := Known(s, id)
                              && BootIsFenced(s, s.incarnations[id].workerId, s.incarnations[id].workerBoot);
            Decides([Guard(Known(s, id), UnknownIncarnation),
                     Guard(!FencedAt(s, id), FencedWorker),
                     Guard(!bootFenced, FencedWorker),
                     Guard(ev.coordinatorEpoch == s.epoch, StaleEpoch),
                     Guard(|EvidenceSlots(s.evidence)| < s.options.maxComponentEvidence, BoundsExceeded)],
                    Publish(s, ev, now).1)
  {
    hide EvidenceSlots, ConfirmOne, EvidenceOf, KeepsAuthority, SameDefinitions, SameServing, KeepsFences, Continues,
      AddsNoCurrent, KeepsAttempts, SameActivations;
  }

  lemma InvalidateComponentsVerdict(s: State, id: u64, reason: bytes)
    ensures Decides([Guard(Known(s, id), UnknownIncarnation), Guard(CanAdvance(s, id), GenerationExhausted)],
                    InvalidateComponents(s, id, reason).1)
  {
    hide DistrustAll, InvalidateOne, KeepsAuthority, SameDefinitions, SameServing, KeepsFences, Continues,
      AddsNoCurrent, KeepsAttempts, SameActivations;
  }

  /* ---- preparation ---- */

  lemma CreatePlanVerdict(s: State, id: u64, profileId: u64, target: DesiredResidency, now: u64)
    ensures Decides([Guard(Known(s, id), UnknownIncarnation), Guard(Current(s, id), StaleIncarnation),
                     Guard(profileId in s.profiles, UnknownProfile),
                     Guard(|s.plans| < s.options.maxPendingPreparation, BoundsExceeded),
                     Guard(EngineDefined(s, id), OutOfRange)], CreatePlan(s, id, profileId, target, now).1)
  {
    hide NewPlan, PrepareOne, KeepsAuthority, SameDefinitions, SameServing, SameEvidence, KeepsFences, Continues,
      AddsNoCurrent, KeepsAttempts, SameActivations;
  }

  lemma BeginPreparationVerdict(s: State, planId: u64, id: u64, profileId: u64)
    ensures Decides([Guard(planId in s.plans, UnknownAttempt),
                     Guard(planId in s.plans && s.plans[planId].epoch == s.epoch, PlanStale),
                     Guard(Current(s, id), StaleIncarnation), Guard(id !in s.activeAttempt, InvalidState),
                     Guard(|s.activeAttempt| < s.options.maxPendingPreparation, BoundsExceeded)],
                    BeginPreparation(s, planId, id, profileId).1)
  {
    hide PrepareOne, KeepsAuthority, SameDefinitions, SameServing, SameEvidence, KeepsFences, Continues, AddsNoCurrent,
      SameActivations;
  }

  lemma CompletePreparationVerdict(s: State, attemptId: u64, now: u64)
    ensures var known := attemptId in s.attempts;
            var id := if known then s.attempts[attemptId].incarnationId else 0;
            var profileId := if known then s.attempts[attemptId].profileId else 0;
            Decides([Guard(known, UnknownAttempt),
                     Guard(known && !s.attempts[attemptId].cancelled, AttemptCancelled),
                     Guard(known && s.attempts[attemptId].epoch == s.epoch, StaleEpoch),
                     Guard(known && s.attempts[attemptId].authority == s.authority, StaleAuthority),
                     Guard(Current(s, id), StaleIncarnation), Guard(profileId in s.profiles, UnknownProfile),
                     Guard(EngineDefined(s, id), UnknownEngine),
                     Guard(AdmitsNow(s, id, profileId, now) ==> CanAdvance(s, id), GenerationExhausted)],
                    CompletePreparation(s, attemptId, now).1)
  {
    CompletionTells(s, attemptId, now);
    hide CompletePreparation, OutlookOf;
  }

  lemma CompletionTells(s: State, attemptId: u64, now: u64)
    ensures CompletePreparation(s, attemptId, now).1 ==
            match CompletePreparationCheck(s, attemptId)
            case Fail(code) => Threw(code)
            case Pass =>
              var a := s.attempts[attemptId];
              var i := s.incarnations[a.incarnationId];
              if OutlookOf(s, s.profiles[a.profileId], i, now).Admits() && Exhausted(i.readinessGeneration)
              then Threw(GenerationExhausted) else Done(attemptId)
  {
    hide OutlookOf, FinishIf, PublishOne, CompleteOne, KeepsAuthority, SameDefinitions, SameServing, SameEvidence,
      KeepsFences, Continues, AddsNoCurrent, KeepsAttempts, SameActivations;
  }

  lemma StopVerdict(s: State, attemptId: u64)
    ensures Decides([Guard(attemptId in s.attempts, UnknownAttempt),
                     Guard(attemptId in s.attempts && !s.attempts[attemptId].publishedReady, InvalidState)],
                    CancelPreparation(s, attemptId).1)
    ensures Decides([Guard(attemptId in s.attempts, UnknownAttempt)], RollbackPreparation(s, attemptId).1)
  {
    hide KeepsAuthority, SameDefinitions, SameServing, SameEvidence, KeepsFences, Continues, AddsNoCurrent,
      KeepsAttempts, SameActivations;
  }

  /* ---- activation and uses ---- */

  /** A profile or slot of 0 is none and asks for nothing. */
  lemma ActivateVerdict(s: State, q: Request, now: u64)
    requires Keyed(s)
    ensures var id := q.incarnationId;
            Decides([Guard(q.authority == s.authority, StaleAuthority), Guard(Known(s, id), UnknownIncarnation),
                     Guard(!FencedAt(s, id), FencedWorker), Guard(RunningAt(s, id), InvalidState),
                     Guard(GenerationIs(s, id, q.readinessGeneration), StaleGeneration),
                     Guard(q.profileId == 0 || q.profileId in s.profiles, UnknownProfile),
                     Guard(q.profileId == 0 || EngineDefined(s, id), OutOfRange),
                     Guard(q.profileId == 0 || AdmitsNow(s, id, q.profileId, now), InvalidState),
                     Guard(q.slotId == 0 || MayTake(s, q.slotId, id), ActivationConflict)],
                    Activate(s, q, now).1)
  {
    ActivateTells(s, q, now);
    TakenIsNot(s, q.slotId, q.incarnationId);
    hide Activate, OutlookOf, SlotTaken, MayTake, Keyed;
  }

  lemma TakenIsNot(s: State, slot: u64, id: u64)
    ensures SlotTaken(s, slot, id) <==> !MayTake(s, slot, id)
  {
  }

  lemma ActivateTells(s: State, q: Request, now: u64)
    requires Keyed(s)
    ensures Activate(s, q, now).1 ==
            match ActivateCheck(s, q, now)
            case Pass => Done(Bump(Bump(s.ids.activation)))
            case Fail(code) => Threw(code)
    ensures q.incarnationId in s.incarnations ==> s.incarnations[q.incarnationId].incarnationId == q.incarnationId
  {
    hide ActivateCheck, ActivateOne, Recorded, KeepsAuthority, SameDefinitions, SameServing, SameEvidence, KeepsFences,
      Continues, KeepsAttempts;
  }

  lemma AcquireVerdict(s: State, id: u64, w: Wanted, now: u64)
    ensures Decides([Guard(Known(s, id), UnknownIncarnation), Guard(Current(s, id), StaleIncarnation),
                     Guard(RunningAt(s, id), InvalidState),
                     Guard(!(id in s.drains && s.drains[id].fenced), UseAfterDrain),
                     Guard(GenerationIs(s, id, w.readinessGeneration), StaleGeneration),
                     Guard(w.profileId in s.profiles, UnknownProfile), Guard(EngineDefined(s, id), UnknownEngine),
                     Guard(AdmitsNow(s, id, w.profileId, now), InvalidState),
                     Guard(s.activeUseCount < s.options.maxActiveUses, BoundsExceeded)],
                    Acquire(s, id, w, now).1)
  {
    AcquisitionTells(s, id, w, now);
    hide Acquire, OutlookOf;
  }

  lemma AcquisitionTells(s: State, id: u64, w: Wanted, now: u64)
    ensures Acquire(s, id, w, now).1 ==
            match AcquireCheck(s, id, w, now)
            case Pass => Done(Bump(Bump(s.ids.use)))
            case Fail(code) => Threw(code)
  {
    hide AcquireCheck, TouchOne, AdmitUse, KeepsAuthority, SameDefinitions, SameDrains, SameEvidence, KeepsFences,
      Continues, AddsNoCurrent, KeepsAttempts, SameActivations;
  }

  lemma ReleaseVerdict(s: State, use: u64, id: u64, c: Closing)
    ensures var known := use in s.activeUses;
            Decides([Guard(known, UnknownUse), Guard(known && !s.activeUses[use].released, DuplicateRelease),
                     Guard(known && s.activeUses[use].incarnationId == id, StaleIncarnation),
                     Guard(s.activeUseCount != 0, InvalidState)], Release(s, use, id, c).1)
  {
    hide ReleaseDrain, Remaining, KeepsAuthority, SameDefinitions, KeepsClosed, SameEvidence, KeepsFences, Continues,
      AddsNoCurrent, KeepsAttempts, SameActivations;
  }

  /* ---- drains and replacement ---- */

  lemma DrainVerdict(s: State, id: u64)
    ensures Decides([Guard(Known(s, id), UnknownIncarnation),
                     Guard(id in s.drains ==> s.drains[id].generation < 0xffff_ffff_ffff_ffff, GenerationExhausted)],
                    RequestDrain(s, id).1)
    ensures Decides([Guard(id in s.drains, InvalidState)], AcknowledgeCleanup(s, id).1)
  {
    hide Remaining, AfterAcknowledgement, DrainOne, KeepsAuthority, SameDefinitions, KeepsClosed, SameUses,
      SameEvidence, KeepsFences, Continues, AddsNoCurrent, KeepsAttempts, SameActivations;
  }

  lemma BeginReplacementVerdict(s: State, plan: ReplacementPlan)
    requires Keyed(s)
    ensures Decides([Guard(plan.epoch == s.epoch, StaleEpoch), Guard(plan.authority == s.authority, StaleAuthority),
                     Guard(RunningAt(s, plan.candidateIncarnation), StaleIncarnation),
                     Guard(Known(s, plan.oldIncarnation), UnknownIncarnation),
                     Guard(plan.candidateIncarnation != plan.oldIncarnation, InvalidArgument)],
                    BeginReplacement(s, plan).1)
  {
    hide KeepsAuthority, SameServing, SameEvidence, KeepsFences, Continues, AddsNoCurrent, KeepsAttempts,
      SameActivations;
  }

  lemma CommitCutoverVerdict(s: State, rid: u64)
    ensures var known := rid in s.replacements;
            Decides([Guard(known, NotFound),
                     Guard(known && s.replacements[rid].phase == PreparingReplacement, InvalidState),
                     Guard(known && RunningAt(s, s.replacements[rid].candidateIncarnation), StaleIncarnation)],
                    CommitCutover(s, rid).1)
  {
    hide FenceOld, DisplaceOld, PromoteOne, KeepsAuthority, KeepsClosed, SameUses, SameEvidence, KeepsFences, Continues,
      KeepsAttempts, SameActivations;
  }

  lemma RetireVerdict(s: State, rid: u64)
    ensures Decides([Guard(rid in s.replacements, NotFound)], RetireOldIncarnation(s, rid).1)
  {
    hide RetireIn, KeepsAuthority, SameServing, SameEvidence, KeepsFences, Continues, AddsNoCurrent, KeepsAttempts,
      SameActivations;
  }

  lemma RecordCostsVerdict(s: State, costs: seq<CostComponent>)
    ensures Decides([Guard(|s.costHistory| + |costs| <= s.options.maxCostSamples, BoundsExceeded)],
                    RecordCosts(s, costs).1)
  {
    hide KeepsAuthority, SameDefinitions, SameServing, SameEvidence, KeepsFences, Continues, AddsNoCurrent,
      KeepsAttempts, SameActivations;
  }
}
