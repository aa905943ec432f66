/** What every run of the runtime keeps. An `Op` is one call of a mutating operation; `Run` performs
    a list of them. */
module RuntimeRuns {
  import opened Prelude
  import opened Errors
  import opened Records
  import opened ReadinessRules
  import opened RuntimeState

  datatype Op =
    | OpDefineEngine(def: EngineDefinition)
    | OpUpdateEngineConfig(engineId: u64, generation: u64, order: seq<u64>)
    | OpDefineProfile(profile: ReadinessProfile)
    | OpIssuePermit(worker: u64, boot: u64)
    | OpRegister(inc: Incarnation, permitId: u64, now: u64)
    | OpMarkRunning(id: u64, now: u64)
    | OpRevalidate(id: u64)
    | OpFenceWorker(worker: u64, boot: u64)
    | OpAdvanceEpoch
    | OpPublish(ev: Evidence, now: u64)
    | OpInvalidateComponents(id: u64, reason: bytes)
    | OpCreatePlan(id: u64, profileId: u64, target: DesiredResidency, now: u64)
    | OpBeginPreparation(planId: u64, id: u64, profileId: u64)
    | OpCompletePreparation(attemptId: u64, now: u64)
    | OpCancelPreparation(attemptId: u64)
    | OpRollbackPreparation(attemptId: u64)
    | OpActivate(request: Request, now: u64)
    | OpAcquire(id: u64, w: Wanted, now: u64)
    | OpRelease(use: u64, id: u64, closing: Closing)
    | OpRequestDrain(id: u64)
    | OpAcknowledgeCleanup(id: u64)
    | OpBeginReplacement(plan: ReplacementPlan)
    | OpCommitCutover(rid: u64)
    | OpRetireOld(rid: u64)
    | OpRecordCosts(costs: seq<CostComponent>)
    | OpLoad(saved: PersistentState)

  /** The operations that change engines, profiles or replacement plans. */
  predicate Defines(op: Op)
  {
    op.OpDefineEngine? || op.OpUpdateEngineConfig? || op.OpDefineProfile? || op.OpBeginReplacement?
    || op.OpCommitCutover? || op.OpRetireOld? || op.OpLoad?
  }

  /** The operations that can make an incarnation current. */
  predicate Promotes(op: Op)
  {
    op.OpRegister? || op.OpRevalidate? || op.OpActivate? || op.OpCommitCutover?
  }

  /** One call; the ensures clauses collect what it leaves alone. */
  ghost function Step(s: State, op: Op): (r: Effect)
    ensures !op.OpAcquire? && !op.OpRelease? && !op.OpLoad? ==> SameUses(s, r.0)
    ensures !op.OpRelease? && !op.OpRequestDrain? && !op.OpAcknowledgeCleanup? && !op.OpCommitCutover? ==>
              SameDrains(s, r.0)
    ensures !op.OpPublish? && !op.OpInvalidateComponents? && !op.OpLoad? ==> SameEvidence(s, r.0)
    ensures !op.OpFenceWorker? ==> KeepsFences(s, r.0)
    ensures !op.OpRegister? && !op.OpMarkRunning? && !op.OpRevalidate? && !op.OpLoad? ==> Continues(s, r.0)
    ensures !Defines(op) ==> SameDefinitions(s, r.0)
    ensures !op.OpIssuePermit? && !op.OpLoad? ==> KeepsAuthority(s, r.0)
    ensures !op.OpBeginPreparation? && !op.OpLoad? ==> KeepsAttempts(s, r.0)
    ensures !op.OpActivate? && !op.OpLoad? ==> SameActivations(s, r.0)
    ensures !Promotes(op) && !op.OpLoad? ==> AddsNoCurrent(s, r.0)
    ensures KeepsClosed(s, r.0)
    ensures r.0.options == s.options
    ensures op.OpLoad? ==> r.0.activeUses == s.activeUses && r.0.activeUseCount == s.activeUseCount
  {
    match op
    case OpDefineEngine(def) => DefineEngine(s, def)
    case OpUpdateEngineConfig(engineId, generation, order) => UpdateEngineConfig(s, engineId, generation, order)
    case OpDefineProfile(profile) => DefineProfile(s, profile)
    case OpIssuePermit(worker, boot) => IssuePermit(s, worker, boot)
    case OpRegister(inc, permitId, now) => Register(s, inc, permitId, now)
    case OpMarkRunning(id, now) => MarkRunning(s, id, now)
    case OpRevalidate(id) => Revalidate(s, id)
    case OpFenceWorker(worker, boot) => FenceWorker(s, worker, boot)
    case OpAdvanceEpoch => AdvanceEpoch(s)
    case OpPublish(ev, now) => Publish(s, ev, now)
    case OpInvalidateComponents(id, reason) => InvalidateComponents(s, id, reason)
    case OpCreatePlan(id, profileId, target, now) => CreatePlan(s, id, profileId, target, now)
    case OpBeginPreparation(planId, id, profileId) => BeginPreparation(s, planId, id, profileId)
    case OpCompletePreparation(attemptId, now) => CompletePreparation(s, attemptId, now)
    case OpCancelPreparation(attemptId) => CancelPreparation(s, attemptId)
    case OpRollbackPreparation(attemptId) => RollbackPreparation(s, attemptId)
    case OpActivate(request, now) => Activate(s, request, now)
    case OpAcquire(id, w, now) => Acquire(s, id, w, now)
    case OpRelease(use, id, closing) => Release(s, use, id, closing)
    case OpRequestDrain(id) => RequestDrain(s, id)
    case OpAcknowledgeCleanup(id) => AcknowledgeCleanup(s, id)
    case OpBeginReplacement(plan) => BeginReplacement(s, plan)
    case OpCommitCutover(rid) => CommitCutover(s, rid)
    case OpRetireOld(rid) => RetireOldIncarnation(s, rid)
    case OpRecordCosts(costs) => RecordCosts(s, costs)
    case OpLoad(saved) => (Load(s, saved), Done(0))
  }

  ghost function Run(s: State, ops: seq<Op>): State
    decreases |ops|
  {
    if ops == [] then s else Run(Step(s, ops[0]).0, ops[1..])
  }

  lemma StepActivate(s: State, op: Op)
    requires op.OpActivate?
    ensures Step(s, op) == Activate(s, op.request, op.now)
  {
  }

  lemma StepCompletePreparation(s: State, op: Op)
    requires op.OpCompletePreparation?
    ensures Step(s, op) == CompletePreparation(s, op.attemptId, op.now)
  {
  }

  lemma StepBeginPreparation(s: State, op: Op)
    requires op.OpBeginPreparation?
    ensures Step(s, op) == BeginPreparation(s, op.planId, op.id, op.profileId)
  {
  }

  lemma StepAcquire(s: State, op: Op)
    requires op.OpAcquire?
    ensures Step(s, op) == Acquire(s, op.id, op.w, op.now)
  {
  }

  lemma StepRelease(s: State, op: Op)
    requires op.OpRelease?
    ensures Step(s, op) == Release(s, op.use, op.id, op.closing)
  {
  }

  lemma StepRequestDrain(s: State, op: Op)
    requires op.OpRequestDrain?
    ensures Step(s, op) == RequestDrain(s, op.id)
  {
  }

  lemma StepAcknowledge(s: State, op: Op)
    requires op.OpAcknowledgeCleanup?
    ensures Step(s, op) == AcknowledgeCleanup(s, op.id)
  {
  }

  lemma StepCutover(s: State, op: Op)
    requires op.OpCommitCutover?
    ensures Step(s, op) == CommitCutover(s, op.rid)
  {
  }

  lemma StepIssuePermit(s: State, op: Op)
    requires op.OpIssuePermit?
    ensures Step(s, op) == IssuePermit(s, op.worker, op.boot)
  {
  }

  lemma StepRegister(s: State, op: Op)
    requires op.OpRegister?
    ensures Step(s, op) == Register(s, op.inc, op.permitId, op.now)
  {
  }

  lemma StepMarkRunning(s: State, op: Op)
    requires op.OpMarkRunning?
    ensures Step(s, op) == MarkRunning(s, op.id, op.now)
  {
  }

  lemma StepRevalidate(s: State, op: Op)
    requires op.OpRevalidate?
    ensures Step(s, op) == Revalidate(s, op.id)
  {
  }

  lemma StepPublish(s: State, op: Op)
    requires op.OpPublish?
    ensures Step(s, op) == Publish(s, op.ev, op.now)
  {
  }

  lemma StepInvalidate(s: State, op: Op)
    requires op.OpInvalidateComponents?
    ensures Step(s, op) == InvalidateComponents(s, op.id, op.reason)
  {
  }

  lemma StepFence(s: State, op: Op)
    requires op.OpFenceWorker?
    ensures Step(s, op) == FenceWorker(s, op.worker, op.boot)
  {
  }

  lemma StepDefineEngine(s: State, op: Op)
    requires op.OpDefineEngine?
    ensures Step(s, op) == DefineEngine(s, op.def)
  {
  }

  lemma StepUpdateEngineConfig(s: State, op: Op)
    requires op.OpUpdateEngineConfig?
    ensures Step(s, op) == UpdateEngineConfig(s, op.engineId, op.generation, op.order)
  {
  }

  lemma StepDefineProfile(s: State, op: Op)
    requires op.OpDefineProfile?
    ensures Step(s, op) == DefineProfile(s, op.profile)
  {
  }

  lemma StepBeginReplacement(s: State, op: Op)
    requires op.OpBeginReplacement?
    ensures Step(s, op) == BeginReplacement(s, op.plan)
  {
  }

  lemma StepRetireOld(s: State, op: Op)
    requires op.OpRetireOld?
    ensures Step(s, op) == RetireOldIncarnation(s, op.rid)
  {
  }

  lemma StepLoad(s: State, op: Op)
    requires op.OpLoad?
    ensures Step(s, op).0 == Load(s, op.saved)
  {
  }

  /* ---- how single operations change the tables ---- */

  lemma RegisterShape(s: State, inc: Incarnation, permitId: u64, now: u64)
    ensures var t := Register(s, inc, permitId, now).0; var id := Bump(Bump(s.ids.incarnation));
            if RegisterCheck(s, inc, permitId).Pass?
            then t.incarnations == s.incarnations[id := AdmitOne(s, inc, id, now)]
                 && t.ids.incarnation == Bump(s.ids.incarnation)
            else t == s
  {
    hide RegisterCheck, SameServing, SameEvidence, KeepsFences, AddsNoCurrent, KeepsAttempts, SameActivations;
  }

  lemma MarkRunningShape(s: State, id: u64, now: u64)
    ensures MarkRunning(s, id, now).0.incarnations ==
            if id in s.incarnations then s.incarnations[id := RunOne(s.incarnations[id], now)] else s.incarnations
    ensures MarkRunning(s, id, now).0.ids == s.ids
  {
    hide RunOne, SameServing, SameEvidence, KeepsFences, AddsNoCurrent, KeepsAttempts, SameActivations;
  }

  lemma RevalidateShape(s: State, id: u64)
    ensures Revalidate(s, id).0.incarnations ==
            if id in s.incarnations then s.incarnations[id := RevalidateOne(s.incarnations[id])] else s.incarnations
    ensures Revalidate(s, id).0.ids == s.ids
    ensures Revalidate(s, id).1.Done? <==> id in s.incarnations && !Exhausted(s.incarnations[id].readinessGeneration)
  {
    hide RevalidateOne, SameServing, SameEvidence, KeepsFences, AddsNoCurrent, KeepsAttempts, SameActivations;
  }

  /** The record that publish_component stores. */
  function Stamped(s: State, ev: Evidence, now: u64): Evidence
  {
    ev.(evidenceId := Bump(Bump(s.ids.evidence)), evidenceGeneration := 1,
        measured := ev.measured.(observedAtNs := now))
  }

  lemma PublishShape(s: State, ev: Evidence, now: u64)
    ensures var t := Publish(s, ev, now).0; var key := ev.origin.incarnationId;
            if PublishCheck(s, ev).Pass?
            then t.evidence == s.evidence[key := EvidenceOf(s, key) + [Stamped(s, ev, now)]]
            else t == s
    ensures PublishCheck(s, ev).Pass? ==> ev.origin.incarnationId in s.incarnations
  {
    hide EvidenceOf, ConfirmOne, EvidenceSlots, SameServing, KeepsFences, Continues, AddsNoCurrent, KeepsAttempts,
      SameActivations;
  }

  lemma InvalidateShape(s: State, id: u64, reason: bytes)
    ensures InvalidateComponents(s, id, reason).0.evidence ==
            if id in s.incarnations then DistrustAll(s.evidence, id, reason) else s.evidence
    ensures InvalidateComponents(s, id, reason).0.incarnations ==
            if id in s.incarnations then s.incarnations[id := InvalidateOne(s.incarnations[id])] else s.incarnations
    ensures InvalidateComponents(s, id, reason).1.Done? <==>
            id in s.incarnations && !Exhausted(s.incarnations[id].readinessGeneration)
  {
    hide DistrustAll, InvalidateOne, SameServing, KeepsFences, Continues, AddsNoCurrent, KeepsAttempts,
      SameActivations;
  }

  lemma ActivateShape(s: State, q: Request, now: u64)
    ensures var e := Activate(s, q, now); var id := Bump(Bump(s.ids.activation));
            if ActivateCheck(s, q, now).Pass?
            then e.1 == Done(id) && q.incarnationId in s.incarnations
                 && e.0.incarnations ==
                    s.incarnations[q.incarnationId := ActivateOne(s.incarnations[q.incarnationId])]
                 && e.0.activations == s.activations[id := Recorded(s.incarnations[q.incarnationId], q)]
                 && e.0.ids.activation == Bump(s.ids.activation)
                 && e.0.slots == PutIf(s.slots, q.slotId != 0, q.slotId, s.incarnations[q.incarnationId].incarnationId)
            else e.0 == s && e.1.Threw?
  {
    hide ActivateOne, Recorded, OutlookOf, KeepsAuthority, SameDefinitions, SameServing, SameEvidence, KeepsFences,
      Continues, AddsNoCurrent, KeepsAttempts, SameActivations;
  }

  lemma LoadFields(t0: State, saved: PersistentState)
    ensures var t := Load(t0, saved);
            && t.epoch == OrElse(saved.coordinatorEpoch, 1) && t.authority == OrElse(saved.authorityGeneration, 1)
            && t.registrationCounter == saved.registrationCounter && t.costHistory == saved.costHistory
            && t.engines == Table(saved.engines, EngineKey) && t.profiles == Table(saved.profiles, ProfileKey)
            && t.incarnations == Table(RestoreAll(saved.incarnations), IncarnationKey)
            && t.evidence == EvidenceTable(saved.evidence) && t.currentByEngine == map[]
            && t.replacements == Table(saved.replacements, ReplacementKey)
  {
    hide Table, EvidenceTable, RestoreAll, KeepsFences, SameDrains, AddsNoCurrent, KeepsAttempts, SameActivations;
  }

  /* ---- tables ---- */

  /** Incarnations are stored under their own identity. */
  ghost predicate Keyed(s: State)
  {
    forall k :: k in s.incarnations ==> s.incarnations[k].incarnationId == k
  }

  lemma {:induction false} TableIsKeyed<T(!new)>(xs: seq<T>, key: T -> u64)
    ensures forall k :: k in Table(xs, key) ==> Table(xs, key)[k] in xs && key(Table(xs, key)[k]) == k
    decreases |xs|
  {
    if xs != [] {
      var n := |xs| - 1;
      TableIsKeyed(xs[..n], key);
      assert forall x :: x in xs[..n] ==> x in xs;
    }
  }

  /** In every reachable state each incarnation is found under its own identity. */
  lemma KeyedStep(s: State, op: Op)
    requires Keyed(s)
    ensures Keyed(Step(s, op).0)
  {
    hide Step;
    if op.OpRegister? {
      StepRegister(s, op);
      hide RegisterCheck, SameServing, SameEvidence, KeepsFences, AddsNoCurrent, KeepsAttempts, SameActivations;
    } else if op.OpMarkRunning? {
      StepMarkRunning(s, op);
      hide SameServing, SameEvidence, KeepsFences, AddsNoCurrent, KeepsAttempts, SameActivations;
    } else if op.OpRevalidate? {
      StepRevalidate(s, op);
      hide SameServing, SameEvidence, KeepsFences, AddsNoCurrent, KeepsAttempts, SameActivations;
    } else if op.OpLoad? {
      StepLoad(s, op);
      hide SameDrains, KeepsFences, RestoreAll, AddsNoCurrent, KeepsAttempts, SameActivations;
      TableIsKeyed(RestoreAll(op.saved.incarnations), IncarnationKey);
    }
  }

  /** In every run incarnations stay under their own identities. */
  lemma {:induction false} KeyedRun(s: State, ops: seq<Op>)
    requires Keyed(s)
    ensures Keyed(Run(s, ops))
    decreases |ops|
  {
    if ops != [] {
      KeyedStep(s, ops[0]);
      hide Step, Keyed;
      KeyedRun(Step(s, ops[0]).0, ops[1..]);
    }
  }
}
