/** What each operation of runtime.cpp leaves in the tables when it succeeds: the records it touches, field by
    field, and everything else as it was. */
module Effects {
  import opened Prelude
  import opened Errors
  import opened Records
  import opened ReadinessRules
  import opened RuntimeState
  import opened RuntimeRuns
  import opened Generations

  /* ---- definitions ---- */

  /** An engine without a generation gets the next number, one without a configuration the first. */
  lemma DefineEngineEffect(s: State, def: EngineDefinition)
    requires DefineEngine(s, def).1.Done?
    ensures var t := DefineEngine(s, def).0;
            var given := def.engineGeneration != 0;
            var number := if given then def.engineGeneration else (s.ids.engine + 2) % TWO64;
            var config := if def.configGeneration == 0 then 1 else def.configGeneration;
            && t.engines == s.engines[def.engineId := def.(engineGeneration := number, configGeneration := config)]
            && t.ids == s.ids.(engine := if given then s.ids.engine else (s.ids.engine + 1) % TWO64)
            && t == s.(engines := t.engines, ids := t.ids) && DefineEngine(s, def).1 == Done(def.engineId)
  {
    TwoOn(s.ids.engine);
    hide Bump, KeepsAuthority, SameDefinitions, SameServing, SameUses, SameDrains, SameEvidence, KeepsFences,
      KeepsClosed, Continues, AddsNoCurrent, KeepsAttempts, SameActivations;
  }

  /** The engine has the new configuration, and each of its incarnations is invalidated and a generation on. */
  lemma UpdateEngineConfigEffect(s: State, engineId: u64, generation: u64, order: seq<u64>)
    requires Enumerates(order, s.incarnations.Keys) && UpdateEngineConfig(s, engineId, generation, order).1.Done?
    ensures var t := UpdateEngineConfig(s, engineId, generation, order).0;
            && engineId in s.engines
            && t.engines == s.engines[engineId := s.engines[engineId].(configGeneration := generation)]
            && t.incarnations.Keys == s.incarnations.Keys
            && (forall k :: k in s.incarnations ==>
                  var i, j := s.incarnations[k], t.incarnations[k];
                  if i.engineId != engineId then j == i
                  else j == i.(readinessGeneration := j.readinessGeneration, state := j.state)
                       && j.readinessGeneration == i.readinessGeneration + 1
                       && j.state == i.state.(preparation := Invalidated))
            && t == s.(engines := t.engines, incarnations := t.incarnations)
  {
    InvalidateAllOnce(s.incarnations, order, s.incarnations.Keys, engineId);
    hide InvalidateAll, Enumerates, KeepsAuthority, SameDefinitions, SameServing, SameUses, SameDrains, SameEvidence,
      KeepsFences, KeepsClosed, Continues, AddsNoCurrent, KeepsAttempts, SameActivations;
  }

  lemma DefineProfileEffect(s: State, profile: ReadinessProfile)
    requires DefineProfile(s, profile).1.Done?
    ensures var t := DefineProfile(s, profile).0;
            var given := profile.profileId != 0;
            var id := if given then profile.profileId else (s.ids.profile + 2) % TWO64;
            var generation := if profile.profileGeneration == 0 then 1 else profile.profileGeneration;
            && t.profiles == s.profiles[id := profile.(profileId := id, profileGeneration := generation)]
            && t.ids == s.ids.(profile := if given then s.ids.profile else (s.ids.profile + 1) % TWO64)
            && t == s.(profiles := t.profiles, ids := t.ids) && DefineProfile(s, profile).1 == Done(id)
  {
    TwoOn(s.ids.profile);
    hide Bump, KeepsAuthority, SameDefinitions, SameServing, SameUses, SameDrains, SameEvidence, KeepsFences,
      KeepsClosed, Continues, AddsNoCurrent, KeepsAttempts, SameActivations;
  }

  /* ---- registration and authority ---- */

  /** A permit for the worker boot under the present epoch and authority, with the next number of the
      sequence. */
  lemma IssuePermitEffect(s: State, worker: u64, boot: u64)
    requires IssuePermit(s, worker, boot).1.Done?
    ensures var t := IssuePermit(s, worker, boot).0;
            var id := (s.ids.permit + 2) % TWO64;
            && t.permits == s.permits[id := Permit(s.epoch, worker, boot, t.registrationCounter, s.authority, false)]
            && t.registrationCounter == (s.registrationCounter + 1) % TWO64
            && IssuePermit(s, worker, boot).1 == Done(id)
  {
    TwoOn(s.registrationCounter);
    TwoOn(s.ids.permit);
    hide IssuePermitCheck, Bump, KeepsAuthority, SameDefinitions, SameServing, SameUses, SameDrains, SameEvidence,
      KeepsFences, KeepsClosed, Continues, AddsNoCurrent, KeepsAttempts, SameActivations;
  }

  lemma IssuePermitFrame(s: State, worker: u64, boot: u64)
    requires IssuePermit(s, worker, boot).1.Done?
    ensures var t := IssuePermit(s, worker, boot).0;
            && t.ids == s.ids.(permit := (s.ids.permit + 1) % TWO64)
            && t == s.(permits := t.permits, registrationCounter := t.registrationCounter, ids := t.ids)
  {
    hide IssuePermitCheck, KeepsAuthority, SameDefinitions, SameServing, SameUses, SameDrains, SameEvidence,
      KeepsFences, KeepsClosed, Continues, AddsNoCurrent, KeepsAttempts, SameActivations;
  }

  /** The caller's record is stored under a new id, starting, nominal and registered under the present epoch
      and authority, with first generations; it is current unless the engine has a current incarnation that is
      neither lost nor failed nor retired; and the permit is spent. */
  lemma RegisterEffect(s: State, inc: Incarnation, permitId: u64, now: u64)
    requires Register(s, inc, permitId, now).1.Done?
    ensures var t := Register(s, inc, permitId, now).0;
            var id := (s.ids.incarnation + 2) % TWO64;
            && Register(s, inc, permitId, now).1 == Done(id)
            && t.incarnations == s.incarnations[id := t.incarnations[id]]
            && NewRecord(s, inc, id, now, t.incarnations[id])
            && t.incarnations[id].isCurrent == !ServedLive(s, inc.engineId)
            && t.currentByEngine == (if ServedLive(s, inc.engineId) then s.currentByEngine
                                     else s.currentByEngine[inc.engineId := id])
            && t.ids == s.ids.(incarnation := (s.ids.incarnation + 1) % TWO64)
            && t == s.(incarnations := t.incarnations, currentByEngine := t.currentByEngine, permits := t.permits,
                       consumed := t.consumed, ids := t.ids)
  {
    TwoOn(s.ids.incarnation);
    LiveIsServed(s, inc.engineId);
    hide RegisterCheck, EngineServed, ServedLive, Bump, KeepsAuthority, SameDefinitions, SameServing, SameUses,
      SameDrains, SameEvidence, KeepsFences, KeepsClosed, Continues, AddsNoCurrent, KeepsAttempts, SameActivations;
  }

  lemma RegisterSpends(s: State, inc: Incarnation, permitId: u64, now: u64)
    requires Register(s, inc, permitId, now).1.Done?
    ensures var t := Register(s, inc, permitId, now).0;
            && permitId in s.permits && t.consumed == s.consumed + {permitId}
            && t.permits == s.permits[permitId := s.permits[permitId].(consumed := true)]
  {
    hide BootTaken, BootFenced, EngineServed, AdmitOne, KeepsAuthority, SameDefinitions, SameServing, SameUses,
      SameDrains, SameEvidence, KeepsFences, KeepsClosed, Continues, AddsNoCurrent, KeepsAttempts, SameActivations;
  }

  /** The incarnation recorded as the engine's is known and neither lost nor failed nor retired. */
  predicate ServedLive(s: State, engineId: u64)
  {
    && engineId in s.currentByEngine && s.currentByEngine[engineId] in s.incarnations
    && s.incarnations[s.currentByEngine[engineId]].state.lifecycle !in {Lost, Failed, Retired}
  }

  lemma LiveIsServed(s: State, engineId: u64)
    ensures ServedLive(s, engineId) <==> EngineServed(s, engineId)
  {
  }

  /** What a registered record keeps of the caller's, and what it gets. */
  predicate NewRecord(s: State, inc: Incarnation, id: u64, now: u64, j: Incarnation)
  {
    && j.incarnationId == id && j.incarnationGeneration == 1 && j.readinessGeneration == 1
    && j.coordinatorEpoch == s.epoch && j.authorityGeneration == s.authority && j.lastActivityNs == now
    && j.registration == Registered
    && j.state == inc.state.(lifecycle := Starting, recovery := Nominal, registration := Registered)
    && j == inc.(incarnationId := id, incarnationGeneration := 1, readinessGeneration := 1,
                 coordinatorEpoch := s.epoch, authorityGeneration := s.authority, lastActivityNs := now,
                 registration := Registered, isCurrent := j.isCurrent, state := j.state)
  }

  lemma MarkRunningEffect(s: State, id: u64, now: u64)
    requires id in s.incarnations
    ensures var t, i := MarkRunning(s, id, now).0, s.incarnations[id];
            && t.incarnations == s.incarnations[id := t.incarnations[id]]
            && t.incarnations[id] ==
               i.(lastActivityNs := now, state := i.state.(lifecycle := Running, health := Healthy))
            && t == s.(incarnations := t.incarnations)
  {
    hide KeepsAuthority, SameDefinitions, SameServing, SameUses, SameDrains, SameEvidence, KeepsFences, KeepsClosed,
      Continues, AddsNoCurrent, KeepsAttempts, SameActivations;
  }

  lemma RevalidateEffect(s: State, id: u64)
    requires Revalidate(s, id).1.Done?
    ensures var t := Revalidate(s, id).0;
            && id in s.incarnations && t.incarnations == s.incarnations[id := t.incarnations[id]]
            && var i := s.incarnations[id];
               && t.incarnations[id] == i.(readinessGeneration := i.readinessGeneration + 1, isCurrent := true,
                    state := i.state.(recovery := Nominal, preparation := Prepared, lifecycle := Running))
               && t.currentByEngine == s.currentByEngine[i.engineId := i.incarnationId]
               && t == s.(incarnations := t.incarnations, currentByEngine := t.currentByEngine)
  {
    hide KeepsAuthority, SameDefinitions, SameServing, SameUses, SameDrains, SameEvidence, KeepsFences, KeepsClosed,
      Continues, AddsNoCurrent, KeepsAttempts, SameActivations;
  }

  /** The boot is added to the fenced ones, and each of its incarnations is fenced, lost and not current. */
  lemma FenceWorkerEffect(s: State, worker: u64, boot: u64)
    ensures var t := FenceWorker(s, worker, boot).0;
            && (forall w, b :: (w in t.fenced && b in t.fenced[w]) <==>
                  (w in s.fenced && b in s.fenced[w]) || (w == worker && b == boot))
            && t.incarnations.Keys == s.incarnations.Keys
            && (forall k :: k in s.incarnations ==>
                  var i, j := s.incarnations[k], t.incarnations[k];
                  if i.workerId != worker || i.workerBoot != boot then j == i
                  else j == i.(isCurrent := false, state := i.state.(health := FencedHealth, lifecycle := Lost,
                                 activation := FencedActivation, registration := FencedRegistration)))
            && t == s.(fenced := t.fenced, incarnations := t.incarnations) && FenceWorker(s, worker, boot).1.Done?
  {
    hide KeepsAuthority, SameDefinitions, SameServing, SameUses, SameDrains, SameEvidence, KeepsFences, KeepsClosed,
      Continues, AddsNoCurrent, KeepsAttempts, SameActivations;
  }

  /** Epoch and authority are one further, every slot is free, and each running incarnation waits for
      revalidation and is not current. */
  lemma AdvanceEpochEffect(s: State)
    requires AdvanceEpoch(s).1.Done?
    ensures var t := AdvanceEpoch(s).0;
            && t.epoch == s.epoch + 1 && t.authority == s.authority + 1 && t.slots == map[]
            && t.incarnations.Keys == s.incarnations.Keys
            && (forall k :: k in s.incarnations ==>
                  var i, j := s.incarnations[k], t.incarnations[k];
                  if i.state.lifecycle != Running then j == i
                  else j == i.(isCurrent := false, state := i.state.(recovery := Revalidating)))
            && t == s.(epoch := t.epoch, authority := t.authority, slots := t.slots, incarnations := t.incarnations)
  {
    hide KeepsAuthority, SameDefinitions, SameServing, SameUses, SameDrains, SameEvidence, KeepsFences, KeepsClosed,
      Continues, AddsNoCurrent, KeepsAttempts, SameActivations;
  }

  /* ---- evidence ---- */

  /** The record is appended with its new id, the first generation and the present time. A backend or device
      context confirms an incarnation that is starting: it runs and is healthy. */
  lemma PublishEffect(s: State, ev: Evidence, now: u64)
    requires Publish(s, ev, now).1.Done?
    ensures var t := Publish(s, ev, now).0;
            var k, id := ev.origin.incarnationId, (s.ids.evidence + 2) % TWO64;
            && Publish(s, ev, now).1 == Done(id) && k in s.incarnations
            && t.evidence == s.evidence[k := (if k in s.evidence then s.evidence[k] else []) + [
                 ev.(evidenceId := id, evidenceGeneration := 1, measured := ev.measured.(observedAtNs := now))]]
            && t.incarnations == s.incarnations[k := t.incarnations[k]]
            && var i := s.incarnations[k];
               var confirms := ev.category in {Backend, DeviceContext} && i.state.lifecycle == Starting;
               && t.incarnations[k] == i.(lastActivityNs := now, state := t.incarnations[k].state)
               && t.incarnations[k].state ==
                  (if confirms then i.state.(lifecycle := Running, health := Healthy) else i.state)
               && t.ids == s.ids.(evidence := (s.ids.evidence + 1) % TWO64)
               && t == s.(evidence := t.evidence, incarnations := t.incarnations, ids := t.ids)
  {
    TwoOn(s.ids.evidence);
    PublishShape(s, ev, now);
    hide PublishCheck, Bump, KeepsAuthority, SameDefinitions, SameServing, SameUses, SameDrains, SameEvidence,
      KeepsFences, KeepsClosed, Continues, AddsNoCurrent, KeepsAttempts, SameActivations;
  }

  /** Whatever happens to the evidence, the incarnation is invalidated and a generation on. */
  lemma InvalidateEffect(s: State, k: u64, reason: bytes)
    requires InvalidateComponents(s, k, reason).1.Done?
    ensures var t := InvalidateComponents(s, k, reason).0;
            && k in s.incarnations
            && var i := s.incarnations[k];
               && t.incarnations == s.incarnations[k :=
                    i.(readinessGeneration := i.readinessGeneration + 1,
                       state := i.state.(preparation := Invalidated))]
               && t == s.(evidence := t.evidence, incarnations := t.incarnations)
  {
    hide DistrustAll, KeepsAuthority, SameDefinitions, SameServing, SameUses, SameDrains, SameEvidence, KeepsFences,
      KeepsClosed, Continues, AddsNoCurrent, KeepsAttempts, SameActivations;
  }

  /* ---- preparation ---- */

  /** The plan names the incarnation, the profile and their generations, the target and the present authority;
      its steps prepare the requirements that lack a strong record, in their order and as many as the bound
      allows, or run the warmup when that is none. The incarnation is planned. */
  lemma CreatePlanEffect(s: State, k: u64, profileId: u64, target: DesiredResidency, now: u64)
    requires CreatePlan(s, k, profileId, target, now).1.Done?
    ensures k in s.incarnations && profileId in s.profiles && s.incarnations[k].engineId in s.engines
    ensures var t := CreatePlan(s, k, profileId, target, now).0;
            var i, p, id := s.incarnations[k], s.profiles[profileId], (s.ids.plan + 2) % TWO64;
            && CreatePlan(s, k, profileId, target, now).1 == Done(id) && t.plans == s.plans[id := t.plans[id]]
            && var plan := t.plans[id];
               && plan.incarnationId == k && plan.incarnationGeneration == i.incarnationGeneration
               && plan.profileId == profileId && plan.profileGeneration == p.profileGeneration
               && plan.target == target && plan.epoch == s.epoch && plan.authority == s.authority
               && plan.sourceBoot == i.sourceBoot
               && PlannedFor(Only(p.requirements, ToMissing(EvidenceOf(s, i.incarnationId))), s.options.maxPlanSteps,
                    plan.steps)
               && t.incarnations == s.incarnations[k := PreparedAs(i, Planned)]
               && t.ids == s.ids.(plan := (s.ids.plan + 1) % TWO64)
               && t == s.(plans := t.plans, incarnations := t.incarnations, ids := t.ids)
  {
    TwoOn(s.ids.plan);
    PlannedSteps(s, k, profileId, target, now);
    hide Only, ToMissing, Having, Bump, KeepsAuthority, SameDefinitions, SameServing, SameUses, SameDrains,
      SameEvidence, KeepsFences, KeepsClosed, Continues, AddsNoCurrent, KeepsAttempts, SameActivations;
  }

  /** One step for each of the first `bound` requirements, or the warmup alone when there is none. */
  predicate PlannedFor(missing: seq<ProfileRequirement>, bound: nat, steps: seq<PlanStep>)
  {
    if missing == [] || bound == 0 then steps == [WarmUp]
    else
      && |steps| == (if |missing| < bound then |missing| else bound)
      && forall j :: 0 <= j < |steps| ==> steps[j] == Prepare(missing[j])
  }

  lemma PlannedSteps(s: State, k: u64, profileId: u64, target: DesiredResidency, now: u64)
    requires k in s.incarnations && profileId in s.profiles && s.incarnations[k].engineId in s.engines
    ensures var i := s.incarnations[k];
            PlannedFor(Only(s.profiles[profileId].requirements, ToMissing(EvidenceOf(s, i.incarnationId))),
              s.options.maxPlanSteps, NewPlan(s, i, k, profileId, target, now).steps)
  {
    var i := s.incarnations[k];
    ListsAreExact(s.engines[i.engineId], s.profiles[profileId].requirements, EvidenceOf(s, i.incarnationId), now);
    hide Only, ToMissing, Having;
  }

  lemma BeginPreparationEffect(s: State, planId: u64, id: u64, profileId: u64)
    requires BeginPreparation(s, planId, id, profileId).1.Done?
    ensures var t := BeginPreparation(s, planId, id, profileId).0;
            var key := (s.ids.attempt + 2) % TWO64;
            && id in s.incarnations && BeginPreparation(s, planId, id, profileId).1 == Done(key)
            && t.attempts == s.attempts[key :=
                 Attempt(planId, id, profileId, s.epoch, s.authority, Planned, false, false)]
            && t.activeAttempt == s.activeAttempt[id := key]
            && t.incarnations == s.incarnations[id := PreparedAs(s.incarnations[id], Preparing)]
  {
    TwoOn(s.ids.attempt);
    BeginKnown(s, planId, id, profileId);
    hide BeginPreparationCheck, Bump, KeepsAuthority, SameDefinitions, SameServing, SameUses, SameDrains,
      SameEvidence, KeepsFences, KeepsClosed, Continues, AddsNoCurrent, KeepsAttempts, SameActivations;
  }

  lemma BeginKnown(s: State, planId: u64, id: u64, profileId: u64)
    requires BeginPreparation(s, planId, id, profileId).1.Done?
    ensures id in s.incarnations
  {
    hide PrepareOne, KeepsAuthority, SameDefinitions, SameServing, SameUses, SameDrains, SameEvidence, KeepsFences,
      KeepsClosed, Continues, AddsNoCurrent, KeepsAttempts, SameActivations;
  }

  lemma BeginPreparationFrame(s: State, planId: u64, id: u64, profileId: u64)
    requires BeginPreparation(s, planId, id, profileId).1.Done?
    ensures var t := BeginPreparation(s, planId, id, profileId).0;
            && t.ids == s.ids.(attempt := (s.ids.attempt + 1) % TWO64)
            && t == s.(attempts := t.attempts, activeAttempt := t.activeAttempt, incarnations := t.incarnations,
                       ids := t.ids)
  {
    hide BeginPreparationCheck, PrepareOne, KeepsAuthority, SameDefinitions, SameServing, SameUses, SameDrains,
      SameEvidence, KeepsFences, KeepsClosed, Continues, AddsNoCurrent, KeepsAttempts, SameActivations;
  }

  function PreparedAs(i: Incarnation, p: PreparationState): Incarnation
  {
    i.(state := i.state.(preparation := p))
  }

  /** A published attempt makes the incarnation prepared and warm and a generation on; one whose profile does
      not admit fails. Either way the incarnation has no active attempt any more. */
  lemma CompletePreparationEffect(s: State, attemptId: u64, now: u64)
    requires CompletePreparation(s, attemptId, now).1.Done?
    ensures attemptId in s.attempts && s.attempts[attemptId].incarnationId in s.incarnations
    ensures s.attempts[attemptId].profileId in s.profiles
            && s.incarnations[s.attempts[attemptId].incarnationId].engineId in s.engines
    ensures var t, a := CompletePreparation(s, attemptId, now).0, s.attempts[attemptId];
            var k := a.incarnationId;
            var i := s.incarnations[k];
            var ready := OutlookOf(s, s.profiles[a.profileId], i, now).Admits();
            && t.attempts == s.attempts[attemptId := if ready then a.(state := Prepared, publishedReady := true)
                                                     else a.(state := PreparationFailed)]
            && t.incarnations == s.incarnations[k :=
                 if ready then i.(readinessGeneration := i.readinessGeneration + 1,
                                  state := i.state.(preparation := Prepared, observed := Warm))
                 else PreparedAs(i, PreparationFailed)]
            && t.activeAttempt == s.activeAttempt - {k}
            && t == s.(attempts := t.attempts, incarnations := t.incarnations, activeAttempt := t.activeAttempt)
  {
    hide OutlookOf, KeepsAuthority, SameDefinitions, SameServing, SameUses, SameDrains, SameEvidence, KeepsFences,
      KeepsClosed, Continues, AddsNoCurrent, KeepsAttempts, SameActivations;
  }

  lemma StopEffect(s: State, attemptId: u64)
    requires attemptId in s.attempts
    ensures var t, a := CancelPreparation(s, attemptId).0, s.attempts[attemptId];
            CancelPreparation(s, attemptId).1.Done? ==>
              && t.attempts == s.attempts[attemptId := a.(cancelled := true, state := PreparationFailed)]
              && t.activeAttempt == s.activeAttempt - {a.incarnationId}
              && t == s.(attempts := t.attempts, activeAttempt := t.activeAttempt)
    ensures var t, a := RollbackPreparation(s, attemptId).0, s.attempts[attemptId];
            && t.attempts == s.attempts[attemptId := a.(state := PreparationFailed)]
            && t.activeAttempt == s.activeAttempt - {a.incarnationId}
            && t == s.(attempts := t.attempts, activeAttempt := t.activeAttempt)
  {
    hide KeepsAuthority, SameDefinitions, SameServing, SameUses, SameDrains, SameEvidence, KeepsFences, KeepsClosed,
      Continues, AddsNoCurrent, KeepsAttempts, SameActivations;
  }

  /* ---- activation and uses ---- */

  /** The incarnation is active and current, holds the slot if one was named, and the record keeps all
      generations and the activation before. */
  lemma ActivateEffect(s: State, q: Request, now: u64)
    requires Activate(s, q, now).1.Done?
    ensures var t := Activate(s, q, now).0;
            var k, id := q.incarnationId, (s.ids.activation + 2) % TWO64;
            && Activate(s, q, now).1 == Done(id) && k in s.incarnations
            && var i := s.incarnations[k];
               && t.incarnations == s.incarnations[k := i.(isCurrent := true, state := i.state.(activation := Active))]
               && t.currentByEngine == s.currentByEngine[i.engineId := i.incarnationId]
               && t.slots == (if q.slotId == 0 then s.slots else s.slots[q.slotId := i.incarnationId])
               && t.activations == s.activations[id := t.activations[id]]
               && ActivationRecord(i, q, t.activations[id])
               && t.ids == s.ids.(activation := (s.ids.activation + 1) % TWO64)
               && t == s.(incarnations := t.incarnations, currentByEngine := t.currentByEngine, slots := t.slots,
                          activations := t.activations, ids := t.ids)
  {
    TwoOn(s.ids.activation);
    hide OutlookOf, SlotTaken, Bump, KeepsAuthority, SameDefinitions, SameServing, SameUses, SameDrains,
      SameEvidence, KeepsFences, KeepsClosed, Continues, AddsNoCurrent, KeepsAttempts, SameActivations;
  }

  predicate ActivationRecord(i: Incarnation, q: Request, a: Activation)
  {
    && a.engineId == i.engineId && a.engineGeneration == i.engineGeneration
    && a.incarnationId == i.incarnationId && a.incarnationGeneration == i.incarnationGeneration
    && a.readinessGeneration == i.readinessGeneration && a.prior == i.state.activation && a.current
    && a.profileId == q.profileId && a.standbyGeneration == q.standbyGeneration && a.slotId == q.slotId
  }

  /** An open use with the generations of the incarnation and of the request, admitted now; one more in the
      counter. */
  lemma AcquireEffect(s: State, k: u64, w: Wanted, now: u64)
    requires Acquire(s, k, w, now).1.Done?
    ensures var t := Acquire(s, k, w, now).0;
            var id := (s.ids.use + 2) % TWO64;
            && Acquire(s, k, w, now).1 == Done(id) && k in s.incarnations
            && var i := s.incarnations[k];
               && t.activeUses == s.activeUses[id := t.activeUses[id]] && AdmittedUse(i, w, now, t.activeUses[id])
               && t.activeUseCount == (s.activeUseCount + 1) % TWO64
               && t.incarnations == s.incarnations[k := i.(lastActivityNs := now)]
               && t.ids == s.ids.(use := (s.ids.use + 1) % TWO64)
               && t == s.(activeUses := t.activeUses, activeUseCount := t.activeUseCount,
                          incarnations := t.incarnations, ids := t.ids)
  {
    TwoOn(s.activeUseCount);
    TwoOn(s.ids.use);
    hide OutlookOf, Bump, KeepsAuthority, SameDefinitions, SameServing, SameUses, SameDrains, SameEvidence,
      KeepsFences, KeepsClosed, Continues, AddsNoCurrent, KeepsAttempts, SameActivations;
  }

  predicate AdmittedUse(i: Incarnation, w: Wanted, now: u64, u: Use)
  {
    && u.engineId == i.engineId && u.engineGeneration == i.engineGeneration
    && u.incarnationId == i.incarnationId && u.incarnationGeneration == i.incarnationGeneration
    && u.wanted == w && !u.released && u.outcome == Completed && u.admittedAtNs == now && u.releasedAtNs == 0
  }

  /** The use is closed with the outcome, time and detail given and keeps the rest; one less in the counter;
      only the drain of its incarnation may move, and only its phase. */
  lemma ReleaseEffect(s: State, use: u64, k: u64, c: Closing)
    requires Release(s, use, k, c).1.Done?
    ensures var t := Release(s, use, k, c).0;
            && use in s.activeUses && t.activeUseCount == s.activeUseCount - 1
            && t.activeUses == s.activeUses[use := s.activeUses[use].(released := true, outcome := c.outcome,
                                                                     releasedAtNs := c.now, detail := c.detail)]
            && t.drains.Keys == s.drains.Keys
            && (forall i :: i in s.drains && i != k ==> t.drains[i] == s.drains[i])
            && (k in s.drains ==> t.drains[k] == s.drains[k].(phase := t.drains[k].phase))
            && t == s.(activeUses := t.activeUses, activeUseCount := t.activeUseCount, drains := t.drains)
  {
    hide Remaining, KeepsAuthority, SameDefinitions, SameServing, SameUses, SameDrains, SameEvidence, KeepsFences,
      KeepsClosed, Continues, AddsNoCurrent, KeepsAttempts, SameActivations;
  }

  /* ---- drains and replacement ---- */

  /** The incarnation drains, its admission is fenced under the next drain generation, and an acknowledgement
      is kept. */
  lemma RequestDrainEffect(s: State, k: u64)
    requires RequestDrain(s, k).1.Done?
    ensures var t := RequestDrain(s, k).0;
            && k in s.incarnations && t.drains == s.drains[k := t.drains[k]] && t.drains[k].fenced
            && t.drains[k].generation == (if k in s.drains then s.drains[k].generation else 0) + 1
            && t.drains[k].ack == (k in s.drains && s.drains[k].ack)
            && t.drains[k].phase in {ActiveUseRemaining, BackendCleanupPending}
            && var i := s.incarnations[k];
               && t.incarnations == s.incarnations[k :=
                    i.(state := i.state.(lifecycle := Draining, activation := DrainingActivation))]
               && t == s.(drains := t.drains, incarnations := t.incarnations)
  {
    hide Remaining, KeepsAuthority, SameDefinitions, SameServing, SameUses, SameDrains, SameEvidence, KeepsFences,
      KeepsClosed, Continues, AddsNoCurrent, KeepsAttempts, SameActivations;
  }

  lemma AcknowledgeEffect(s: State, k: u64)
    requires k in s.drains
    ensures var t := AcknowledgeCleanup(s, k).0;
            && t.drains == s.drains[k := t.drains[k]]
            && t.drains[k] == s.drains[k].(ack := true, phase := t.drains[k].phase)
            && t == s.(drains := t.drains)
  {
    hide Remaining, KeepsAuthority, SameDefinitions, SameServing, SameUses, SameDrains, SameEvidence, KeepsFences,
      KeepsClosed, Continues, AddsNoCurrent, KeepsAttempts, SameActivations;
  }

  /** The caller's plan is stored under a new id, in its first generation and preparing. */
  lemma BeginReplacementEffect(s: State, plan: ReplacementPlan)
    requires BeginReplacement(s, plan).1.Done?
    ensures var t := BeginReplacement(s, plan).0;
            var id := (s.ids.replacement + 2) % TWO64;
            && BeginReplacement(s, plan).1 == Done(id)
            && t.replacements == s.replacements[id :=
                 plan.(replacementId := id, replacementGeneration := 1, phase := PreparingReplacement,
                       overlapAvailable := plan.overlapBytes == 0)]
            && t.ids == s.ids.(replacement := (s.ids.replacement + 1) % TWO64)
            && t == s.(replacements := t.replacements, ids := t.ids)
  {
    TwoOn(s.ids.replacement);
    hide Bump, KeepsAuthority, SameDefinitions, SameServing, SameUses, SameDrains, SameEvidence, KeepsFences,
      KeepsClosed, Continues, AddsNoCurrent, KeepsAttempts, SameActivations;
  }

  /** The old incarnation, if known, is not current, fenced from activation and closed to admission; then the
      candidate is current, standing by and running; and the plan is cut over. Every other record is as it
      was. */
  lemma CommitCutoverEffect(s: State, rid: u64)
    requires Keyed(s) && CommitCutover(s, rid).1.Done?
    ensures var t := CommitCutover(s, rid).0;
            && rid in s.replacements
            && var p := s.replacements[rid];
               var o, c := p.oldIncarnation, p.candidateIncarnation;
               && c in s.incarnations && t.incarnations.Keys == s.incarnations.Keys
               && (forall k :: k in s.incarnations && k != o && k != c ==> t.incarnations[k] == s.incarnations[k])
               && (o in s.incarnations && o != c ==>
                     t.incarnations[o] == s.incarnations[o].(isCurrent := false,
                       state := s.incarnations[o].state.(activation := FencedActivation)))
               && t.incarnations[c] == s.incarnations[c].(isCurrent := true,
                    state := s.incarnations[c].state.(activation := Standby, lifecycle := Running))
               && t.currentByEngine == s.currentByEngine[s.incarnations[c].engineId := c]
               && t.drains == (if o in s.incarnations then s.drains[o := t.drains[o]] else s.drains)
               && (o in s.incarnations ==>
                     t.drains[o] == (if o in s.drains then s.drains[o] else NO_DRAIN).(fenced := true))
               && t.replacements == s.replacements[rid := p.(phase := Cutover)]
               && t == s.(incarnations := t.incarnations, currentByEngine := t.currentByEngine, drains := t.drains,
                          replacements := t.replacements)
  {
    hide KeepsAuthority, SameDefinitions, SameServing, SameUses, SameDrains, SameEvidence, KeepsFences, KeepsClosed,
      Continues, AddsNoCurrent, KeepsAttempts, SameActivations;
  }

  /** The old incarnation, if known, is retired, lost and not current, every other record is as it was, and
      the plan is complete. */
  lemma RetirementEffect(s: State, rid: u64)
    requires RetireOldIncarnation(s, rid).1.Done?
    ensures var t := RetireOldIncarnation(s, rid).0;
            && rid in s.replacements
            && var p := s.replacements[rid];
               var o := p.oldIncarnation;
               && t.incarnations.Keys == s.incarnations.Keys
               && (forall k :: k in s.incarnations && k != o ==> t.incarnations[k] == s.incarnations[k])
               && (o in s.incarnations ==>
                     t.incarnations[o] == s.incarnations[o].(isCurrent := false,
                       state := s.incarnations[o].state.(lifecycle := Retired, health := LostHealth)))
               && t.replacements == s.replacements[rid := p.(phase := Complete)]
               && t == s.(incarnations := t.incarnations, replacements := t.replacements)
  {
    hide KeepsAuthority, SameDefinitions, SameServing, SameUses, SameDrains, SameEvidence, KeepsFences, KeepsClosed,
      Continues, AddsNoCurrent, KeepsAttempts, SameActivations;
  }

  lemma RecordCostsEffect(s: State, costs: seq<CostComponent>)
    requires RecordCosts(s, costs).1.Done?
    ensures RecordCosts(s, costs).0 == s.(costHistory := s.costHistory + costs)
  {
    hide KeepsAuthority, SameDefinitions, SameServing, SameUses, SameDrains, SameEvidence, KeepsFences, KeepsClosed,
      Continues, AddsNoCurrent, KeepsAttempts, SameActivations;
  }

  /** load replaces what was saved and the record of current incarnations, resumes all counters but those of
      engines and profiles at a million, and leaves uses, drains, permits, fences, plans, attempts, slots and
      activations alone. */
  lemma LoadEffect(s: State, saved: PersistentState)
    ensures var t := Load(s, saved);
            && t.ids.engine == s.ids.engine && t.ids.profile == s.ids.profile
            && t.ids == Counters(t.ids.engine, t.ids.profile, 1_000_000, 1_000_000, 1_000_000, 1_000_000, 1_000_000,
                          1_000_000, 1_000_000, 1_000_000)
            && t == s.(epoch := t.epoch, authority := t.authority, registrationCounter := t.registrationCounter,
                       engines := t.engines, profiles := t.profiles, incarnations := t.incarnations,
                       evidence := t.evidence, replacements := t.replacements, costHistory := t.costHistory,
                       currentByEngine := map[], ids := t.ids)
  {
    hide Table, EvidenceTable, RestoreAll, KeepsAuthority, SameDefinitions, SameServing, SameUses, SameDrains,
      SameEvidence, KeepsFences, KeepsClosed, Continues, AddsNoCurrent, KeepsAttempts, SameActivations;
  }

  /* ---- calls that throw ---- */

  /** A refused call changes nothing; the exceptions follow. */
  lemma RegistrationRefused(s: State, inc: Incarnation, permitId: u64, now: u64, worker: u64, boot: u64)
    ensures Register(s, inc, permitId, now).1.Threw? ==> Register(s, inc, permitId, now).0 == s
    ensures IssuePermit(s, worker, boot).1.Threw? ==> IssuePermit(s, worker, boot).0 == s
    ensures MarkRunning(s, permitId, now).1.Threw? ==> MarkRunning(s, permitId, now).0 == s
  {
    hide RegisterCheck, IssuePermitCheck, KeepsAuthority, SameDefinitions, SameServing, SameUses, SameDrains,
      SameEvidence, KeepsFences, KeepsClosed, Continues, AddsNoCurrent, KeepsAttempts, SameActivations;
  }

  lemma PublicationRefused(s: State, ev: Evidence, now: u64)
    ensures Publish(s, ev, now).1.Threw? ==> Publish(s, ev, now).0 == s
  {
    hide PublishCheck, EvidenceOf, ConfirmOne, KeepsAuthority, SameDefinitions, SameServing, SameUses, SameDrains,
      SameEvidence, KeepsFences, KeepsClosed, Continues, AddsNoCurrent, KeepsAttempts, SameActivations;
  }

  lemma PreparationRefused(s: State, planId: u64, k: u64, profileId: u64, target: DesiredResidency, now: u64)
    ensures CreatePlan(s, k, profileId, target, now).1.Threw? ==> CreatePlan(s, k, profileId, target, now).0 == s
    ensures BeginPreparation(s, planId, k, profileId).1.Threw? ==> BeginPreparation(s, planId, k, profileId).0 == s
    ensures CancelPreparation(s, planId).1.Threw? ==> CancelPreparation(s, planId).0 == s
    ensures RollbackPreparation(s, planId).1.Threw? ==> RollbackPreparation(s, planId).0 == s
  {
    hide CreatePlanCheck, BeginPreparationCheck, CancelPreparationCheck, NewPlan, KeepsAuthority, SameDefinitions,
      SameServing, SameUses, SameDrains, SameEvidence, KeepsFences, KeepsClosed, Continues, AddsNoCurrent,
      KeepsAttempts, SameActivations;
  }

  lemma ActivationRefused(s: State, q: Request, now: u64)
    ensures Activate(s, q, now).1.Threw? ==> Activate(s, q, now).0 == s
  {
    hide ActivateCheck, ActivateOne, Recorded, KeepsAuthority, SameDefinitions, SameServing, SameUses, SameDrains,
      SameEvidence, KeepsFences, KeepsClosed, Continues, AddsNoCurrent, KeepsAttempts, SameActivations;
  }

  lemma AdmissionRefused(s: State, k: u64, w: Wanted, now: u64)
    ensures Acquire(s, k, w, now).1.Threw? ==> Acquire(s, k, w, now).0 == s
  {
    hide AcquireCheck, AdmitUse, KeepsAuthority, SameDefinitions, SameServing, SameUses, SameDrains, SameEvidence,
      KeepsFences, KeepsClosed, Continues, AddsNoCurrent, KeepsAttempts, SameActivations;
  }

  lemma DrainRefused(s: State, k: u64)
    ensures RequestDrain(s, k).1.Threw? ==> RequestDrain(s, k).0 == s
    ensures AcknowledgeCleanup(s, k).1.Threw? ==> AcknowledgeCleanup(s, k).0 == s
  {
    hide RequestDrainCheck, Remaining, AfterAcknowledgement, KeepsAuthority, SameDefinitions, SameServing, SameUses,
      SameDrains, SameEvidence, KeepsFences, KeepsClosed, Continues, AddsNoCurrent, KeepsAttempts, SameActivations;
  }

  lemma ReplacementRefused(s: State, plan: ReplacementPlan, rid: u64)
    ensures BeginReplacement(s, plan).1.Threw? ==> BeginReplacement(s, plan).0 == s
    ensures CommitCutover(s, rid).1.Threw? ==> CommitCutover(s, rid).0 == s
    ensures RetireOldIncarnation(s, rid).1.Threw? ==> RetireOldIncarnation(s, rid).0 == s
  {
    hide BeginReplacementCheck, CutoverCheck, DisplaceOld, FenceOld, PromoteOne, RetireIn, KeepsAuthority,
      SameDefinitions, SameServing, SameUses, SameDrains, SameEvidence, KeepsFences, KeepsClosed, Continues,
      AddsNoCurrent, KeepsAttempts, SameActivations;
  }

  lemma CostsRefused(s: State, costs: seq<CostComponent>)
    ensures RecordCosts(s, costs).1.Threw? ==> RecordCosts(s, costs).0 == s
  {
    hide KeepsAuthority, SameDefinitions, SameServing, SameUses, SameDrains, SameEvidence, KeepsFences, KeepsClosed,
      Continues, AddsNoCurrent, KeepsAttempts, SameActivations;
  }

  /** A number that was taken before the bound or the engine was looked at stays taken. */
  lemma DefinitionThrows(s: State, def: EngineDefinition, profile: ReadinessProfile)
    ensures var e := DefineEngine(s, def);
            && (e.1 == Threw(InvalidArgument) ==> e.0 == s)
            && (e.1 == Threw(BoundsExceeded) ==>
                  e.0 == s.(ids := s.ids.(engine := if def.engineGeneration == 0 then Bump(s.ids.engine)
                                                    else s.ids.engine)))
    ensures var e := DefineProfile(s, profile);
            e.1.Threw? ==>
              e.0 == s.(ids := s.ids.(profile := if profile.profileId == 0 then Bump(s.ids.profile)
                                                 else s.ids.profile))
  {
    hide Bump, KeepsAuthority, SameDefinitions, SameServing, SameUses, SameDrains, SameEvidence, KeepsFences,
      KeepsClosed, Continues, AddsNoCurrent, KeepsAttempts, SameActivations;
  }

  /** With no generation left, what was written before it was asked for stays. */
  lemma ExhaustedThrows(s: State, k: u64, reason: bytes)
    requires k in s.incarnations && s.incarnations[k].readinessGeneration == 0xffff_ffff_ffff_ffff
    ensures var t, i := Revalidate(s, k).0, s.incarnations[k];
            && t.incarnations == s.incarnations[k := i.(isCurrent := true,
                 state := i.state.(recovery := Nominal, preparation := Prepared, lifecycle := Running))]
            && t.currentByEngine == s.currentByEngine[i.engineId := i.incarnationId]
            && t == s.(incarnations := t.incarnations, currentByEngine := t.currentByEngine)
    ensures var t := InvalidateComponents(s, k, reason).0;
            && t.incarnations == s.incarnations[k := PreparedAs(s.incarnations[k], Invalidated)]
            && t == s.(incarnations := t.incarnations, evidence := t.evidence)
  {
    hide DistrustAll, KeepsAuthority, SameDefinitions, SameServing, SameUses, SameDrains, SameEvidence, KeepsFences,
      KeepsClosed, Continues, AddsNoCurrent, KeepsAttempts, SameActivations;
  }

  lemma AdvanceEpochThrows(s: State)
    ensures AdvanceEpoch(s).1.Threw? ==>
              AdvanceEpoch(s).0 == if s.epoch == 0xffff_ffff_ffff_ffff then s else s.(epoch := s.epoch + 1)
  {
    hide KeepsAuthority, SameDefinitions, SameServing, SameUses, SameDrains, SameEvidence, KeepsFences, KeepsClosed,
      Continues, AddsNoCurrent, KeepsAttempts, SameActivations;
  }

  /** The attempt counts as published although the incarnation got no new generation, and stays the active
      one. */
  lemma CompletePreparationThrows(s: State, attemptId: u64, now: u64)
    requires CompletePreparation(s, attemptId, now).1.Threw?
    ensures var t := CompletePreparation(s, attemptId, now).0;
            t == s || (CompletePreparationCheck(s, attemptId).Pass?
                       && var a := s.attempts[attemptId];
                          var i := s.incarnations[a.incarnationId];
                          && i.readinessGeneration == 0xffff_ffff_ffff_ffff
                          && t == s.(attempts := s.attempts[attemptId := a.(state := Prepared, publishedReady := true)],
                                     incarnations := s.incarnations[a.incarnationId := PreparedAs(i, Prepared)]))
  {
    hide OutlookOf, KeepsAuthority, SameDefinitions, SameServing, SameUses, SameDrains, SameEvidence, KeepsFences,
      KeepsClosed, Continues, AddsNoCurrent, KeepsAttempts, SameActivations;
  }

  /** A release that finds the counter at zero has marked the use and does no more. */
  lemma ReleaseThrows(s: State, use: u64, k: u64, c: Closing)
    requires Release(s, use, k, c).1.Threw?
    ensures Release(s, use, k, c).0 ==
            if use in s.activeUses && !s.activeUses[use].released && s.activeUses[use].incarnationId == k
            then s.(activeUses := s.activeUses[use := s.activeUses[use].(released := true, outcome := c.outcome,
                                                                       releasedAtNs := c.now, detail := c.detail)])
            else s
  {
    hide Remaining, KeepsAuthority, SameDefinitions, SameServing, SameUses, SameDrains, SameEvidence, KeepsFences,
      KeepsClosed, Continues, AddsNoCurrent, KeepsAttempts, SameActivations;
  }

  /** Counters move twice before an id is taken: ++counter, and one more. */
  lemma TwoOn(counter: u64)
    ensures Bump(counter) == (counter + 1) % TWO64 && Bump(Bump(counter)) == (counter + 2) % TWO64
  {
  }
}
