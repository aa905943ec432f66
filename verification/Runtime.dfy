/** The class EngineResidency of runtime.cpp. Each method works on the fields in place and is proved
    to do what the function of RuntimeState with its name says. Hash tables are walked in an
    arbitrary order. */
module Runtime {
  import opened Prelude
  import opened Errors
  import opened Records
  import opened ReadinessRules
  import S = RuntimeState
  import opened RuntimeState
  import opened Recovery
  import opened Economics
  import Blob

  class EngineResidency {
    var options: Options
    var epoch: u64
    var authority: u64
    var registrationCounter: u64
    var engines: map<u64, EngineDefinition>
    var profiles: map<u64, ReadinessProfile>
    var incarnations: map<u64, Incarnation>
    var currentByEngine: map<u64, u64>
    var evidence: map<u64, seq<Evidence>>
    var activeAttempt: map<u64, u64>
    var attempts: map<u64, Attempt>
    var plans: map<u64, Plan>
    var activeUses: map<u64, Use>
    var activeUseCount: u64
    var slots: map<u64, u64>
    var activations: map<u64, Activation>
    var drains: map<u64, Drain>
    var replacements: map<u64, ReplacementPlan>
    var permits: map<u64, Permit>
    var consumed: set<u64>
    var fenced: map<u64, set<u64>>
    var costHistory: seq<CostComponent>
    var ids: Counters

    function View(): State
      reads this
    {
      State(options, epoch, authority, registrationCounter, engines, profiles, incarnations, currentByEngine, evidence,
        activeAttempt, attempts, plans, activeUses, activeUseCount, slots, activations, drains, replacements, permits,
        consumed, fenced, costHistory, ids)
    }

    constructor (options: Options)
      ensures View() == Initial(options)
    {
      this.options := options;
      epoch, authority, registrationCounter := 1, 1, 0;
      engines, profiles, incarnations, currentByEngine, evidence := map[], map[], map[], map[], map[];
      activeAttempt, attempts, plans, activeUses, activeUseCount := map[], map[], map[], map[], 0;
      slots, activations, drains, replacements, permits := map[], map[], map[], map[], map[];
      consumed, fenced, costHistory := {}, map[], [];
      ids := Counters(0, 0, 0, 0, 0, 0, 0, 0, 0, 0);
    }

    /* ---- definitions ---- */

    method DefineEngine(def: EngineDefinition) returns (r: Ret)
      modifies `ids, `engines
      ensures (old(View()).(ids := ids, engines := engines), r) == S.DefineEngine(old(View()), def)
    {
      hide SameServing, SameEvidence, KeepsFences, Continues, AddsNoCurrent, KeepsAttempts, SameActivations;
      var d := def;
      if d.engineId == 0 {
        return Threw(InvalidArgument);
      }
      if d.engineGeneration == 0 {
        ids := ids.(engine := Bump(ids.engine));
        d := d.(engineGeneration := Bump(ids.engine));
      }
      if d.configGeneration == 0 {
        d := d.(configGeneration := 1);
      }
      if |engines| >= options.maxEngines {
        return Threw(BoundsExceeded);
      }
      engines := engines[d.engineId := d];
      return Done(d.engineId);
    }

    method DefineProfile(profile: ReadinessProfile) returns (r: Ret)
      modifies `ids, `profiles
      ensures (old(View()).(ids := ids, profiles := profiles), r) == S.DefineProfile(old(View()), profile)
    {
      hide SameServing, SameEvidence, KeepsFences, Continues, AddsNoCurrent, KeepsAttempts, SameActivations;
      var p := profile;
      if p.profileId == 0 {
        ids := ids.(profile := Bump(ids.profile));
        p := p.(profileId := Bump(ids.profile));
      }
      if p.profileGeneration == 0 {
        p := p.(profileGeneration := 1);
      }
      if p.engineId !in engines {
        return Threw(UnknownEngine);
      }
      profiles := profiles[p.profileId := p];
      return Done(p.profileId);
    }

    /** The loop stops at the first exhausted generation; `order` records how far and in which order the
        table was walked, completed to the whole table. */
    method UpdateEngineConfig(engineId: u64, generation: u64) returns (r: Ret, ghost order: seq<u64>)
      modifies `engines, `incarnations
      ensures Enumerates(order, old(incarnations).Keys)
      ensures (old(View()).(engines := engines, incarnations := incarnations), r)
              == S.UpdateEngineConfig(old(View()), engineId, generation, order)
    {
      ghost var before := incarnations;
      order := Enumeration(before.Keys);
      hide SameServing, SameEvidence, KeepsFences, Continues, Enumerates, AddsNoCurrent, KeepsAttempts,
        SameActivations;
      if engineId !in engines {
        return Threw(UnknownEngine), order;
      }
      if generation <= engines[engineId].configGeneration {
        return Threw(StaleGeneration), order;
      }
      engines := engines[engineId := engines[engineId].(configGeneration := generation)];
      r, order := InvalidateEngine(engineId);
    }

    /** The loop of update_engine_config over the incarnation table. */
    method InvalidateEngine(engineId: u64) returns (r: Ret, ghost order: seq<u64>)
      modifies `incarnations
      ensures Enumerates(order, old(incarnations).Keys)
      ensures (incarnations, r) == InvalidateAll(old(incarnations), order, engineId)
    {
      hide InvalidateAll, Enumerates, Evolves, Down;
      ghost var before := incarnations;
      var todo := incarnations.Keys;
      ghost var done: set<u64> := {};
      order := [];
      NothingWalked(before, engineId);
      while todo != {}
        invariant incarnations.Keys == before.Keys == done + todo && done !! todo
        invariant Enumerates(order, done)
        invariant InvalidateAll(before, order, engineId) == (incarnations, Done(0))
        decreases todo
      {
        var k :| k in todo;
        WalkStep(before, order, done, todo, incarnations, k, engineId);
        var i := incarnations[k];
        if i.engineId == engineId {
          if Exhausted(i.readinessGeneration) {
            incarnations := incarnations[k := i.(state := i.state.(preparation := Invalidated))];
            return Threw(GenerationExhausted), order + ([k] + Enumeration(todo - {k}));
          }
          incarnations := incarnations[k := i.(state := i.state.(preparation := Invalidated),
                                               readinessGeneration := i.readinessGeneration + 1)];
        }
        order := order + [k];
        done := done + {k};
        todo := todo - {k};
      }
      assert done == before.Keys;
      r := Done(0);
    }

    /* ---- registration and authority ---- */

    method IssuePermit(worker: u64, boot: u64) returns (r: Ret)
      modifies `ids, `registrationCounter, `permits
      ensures (old(View()).(ids := ids, registrationCounter := registrationCounter, permits := permits), r)
              == S.IssuePermit(old(View()), worker, boot)
    {
      hide SameDefinitions, SameServing, SameEvidence, KeepsFences, Continues, AddsNoCurrent, KeepsAttempts,
        SameActivations;
      if boot < 1 {
        return Threw(InvalidArgument);
      }
      if worker in fenced && boot in fenced[worker] {
        return Threw(FencedWorker);
      }
      if |permits| >= options.maxPermits {
        return Threw(BoundsExceeded);
      }
      ids := ids.(permit := Bump(ids.permit));
      var id := Bump(ids.permit);
      registrationCounter := Bump(registrationCounter);
      permits := permits[id := Permit(epoch, worker, boot, registrationCounter, authority, false)];
      return Done(id);
    }

    /** The scan for a live incarnation of the same worker boot. */
    method ScanBoot(worker: u64, boot: u64) returns (taken: bool)
      ensures taken <==> BootTaken(View(), worker, boot)
    {
      var todo := incarnations.Keys;
      while todo != {}
        invariant todo <= incarnations.Keys
        invariant forall k :: k in incarnations.Keys - todo ==>
                    !(OfBoot(incarnations[k], worker, boot) && !Gone(incarnations[k].state.lifecycle))
        decreases todo
      {
        var k :| k in todo;
        var i := incarnations[k];
        if i.workerId == worker && i.workerBoot == boot && i.state.lifecycle != Lost && i.state.lifecycle != Failed
           && i.state.lifecycle != Retired {
          assert View().incarnations[k] == i;
          return true;
        }
        todo := todo - {k};
      }
      return false;
    }

    method CheckRegister(inc: Incarnation, permitId: u64) returns (check: Outcome<ErrorCode>)
      ensures check == RegisterCheck(View(), inc, permitId)
    {
      hide BootTaken;
      if permitId !in permits {
        return Fail(RegistrationRejected);
      }
      var p := permits[permitId];
      if p.consumed {
        return Fail(RegistrationRejected);
      }
      if p.workerId != inc.workerId || p.workerBoot != inc.workerBoot {
        return Fail(RegistrationRejected);
      }
      if p.epoch != epoch {
        return Fail(StaleEpoch);
      }
      if inc.workerId in fenced && inc.workerBoot in fenced[inc.workerId] {
        return Fail(FencedWorker);
      }
      if inc.engineId !in engines {
        return Fail(UnknownEngine);
      }
      var taken := ScanBoot(inc.workerId, inc.workerBoot);
      if taken {
        return Fail(RegistrationRejected);
      }
      if |incarnations| >= options.maxIncarnations {
        return Fail(BoundsExceeded);
      }
      return Pass;
    }

    method Register(inc: Incarnation, permitId: u64, now: u64) returns (r: Ret)
      modifies `ids, `currentByEngine, `incarnations, `permits, `consumed
      ensures (old(View()).(ids := ids, currentByEngine := currentByEngine, incarnations := incarnations,
                            permits := permits, consumed := consumed), r)
              == S.Register(old(View()), inc, permitId, now)
    {
      var check := CheckRegister(inc, permitId);
      assert check.Pass? ==> permitId in permits;
      hide RegisterCheck, SameDefinitions, SameServing, SameEvidence, KeepsFences, AddsNoCurrent, KeepsAttempts,
        SameActivations;
      if check.Fail? {
        return Threw(check.error);
      }
      ids := ids.(incarnation := Bump(ids.incarnation));
      var id := Bump(ids.incarnation);
      var served := inc.engineId in currentByEngine && currentByEngine[inc.engineId] in incarnations
        && !Gone(incarnations[currentByEngine[inc.engineId]].state.lifecycle);
      var i := inc.(incarnationId := id, incarnationGeneration := 1, coordinatorEpoch := epoch,
        authorityGeneration := authority, registration := Registered, readinessGeneration := 1,
        lastActivityNs := now, isCurrent := !served,
        state := inc.state.(lifecycle := Starting, recovery := Nominal, registration := Registered));
      assert i == AdmitOne(old(View()), inc, id, now);
      hide AdmitOne, EngineServed;
      if i.isCurrent {
        currentByEngine := currentByEngine[i.engineId := i.incarnationId];
      }
      incarnations := incarnations[i.incarnationId := i];
      permits := permits[permitId := permits[permitId].(consumed := true)];
      consumed := consumed + {permitId};
      return Done(i.incarnationId);
    }

    method MarkRunning(id: u64, now: u64) returns (r: Ret)
      modifies `incarnations
      ensures (old(View()).(incarnations := incarnations), r) == S.MarkRunning(old(View()), id, now)
    {
      hide SameDefinitions, SameServing, SameEvidence, KeepsFences, AddsNoCurrent, KeepsAttempts, SameActivations;
      if id !in incarnations {
        return Threw(UnknownIncarnation);
      }
      var i := incarnations[id];
      incarnations := incarnations[id :=
        i.(state := i.state.(lifecycle := Running, health := Healthy), lastActivityNs := now)];
      return Done(id);
    }

    method Revalidate(id: u64) returns (r: Ret)
      modifies `currentByEngine, `incarnations
      ensures (old(View()).(currentByEngine := currentByEngine, incarnations := incarnations), r)
              == S.Revalidate(old(View()), id)
    {
      hide SameDefinitions, SameServing, SameEvidence, KeepsFences, AddsNoCurrent, KeepsAttempts, SameActivations;
      if id !in incarnations {
        return Threw(UnknownIncarnation);
      }
      var i := incarnations[id].(isCurrent := true,
        state := incarnations[id].state.(recovery := Nominal, preparation := Prepared, lifecycle := Running));
      incarnations := incarnations[id := i];
      currentByEngine := currentByEngine[i.engineId := i.incarnationId];
      if i.readinessGeneration == TWO64 - 1 {
        return Threw(GenerationExhausted);
      }
      var j := i.(readinessGeneration := i.readinessGeneration + 1);
      assert old(incarnations)[id := i][id := j] == old(incarnations)[id := j];
      incarnations := incarnations[id := j];
      return Done(id);
    }

    method FenceWorker(worker: u64, boot: u64) returns (r: Ret)
      modifies `fenced, `incarnations
      ensures (old(View()).(fenced := fenced, incarnations := incarnations), r)
              == S.FenceWorker(old(View()), worker, boot)
    {
      hide SameDefinitions, SameServing, SameEvidence, Continues, Evolves, Down, AddsNoCurrent, KeepsAttempts,
        SameActivations;
      fenced := fenced[worker := (if worker in fenced then fenced[worker] else {}) + {boot}];
      ghost var before := incarnations;
      FenceIncarnations(worker, boot);
      assert incarnations == FenceAll(before, worker, boot);
      return Done(0);
    }

    /** The loop of fence_worker. */
    method FenceIncarnations(worker: u64, boot: u64)
      modifies `incarnations
      ensures incarnations.Keys == old(incarnations).Keys
      ensures forall k :: k in incarnations ==>
                var was := old(incarnations)[k];
                incarnations[k] == if OfBoot(was, worker, boot) then FenceOne(was) else was
    {
      hide Evolves, Down;
      ghost var before := incarnations;
      var todo := incarnations.Keys;
      while todo != {}
        invariant incarnations.Keys == before.Keys && todo <= before.Keys
        invariant forall k :: k in before ==>
                    var touched := k !in todo && OfBoot(before[k], worker, boot);
                    incarnations[k] == if touched then FenceOne(before[k]) else before[k]
        decreases todo
      {
        var k :| k in todo;
        todo := todo - {k};
        var i := incarnations[k];
        if i.workerId == worker && i.workerBoot == boot {
          incarnations := incarnations[k := i.(isCurrent := false, state := i.state.(health := FencedHealth,
            lifecycle := Lost, activation := FencedActivation, registration := FencedRegistration))];
        }
      }
    }

    method AdvanceEpoch() returns (r: Ret)
      modifies `epoch, `authority, `incarnations, `slots
      ensures (old(View()).(epoch := epoch, authority := authority, incarnations := incarnations, slots := slots), r)
              == S.AdvanceEpoch(old(View()))
    {
      hide SameDefinitions, SameServing, SameEvidence, KeepsFences, Continues, Evolves, Down, AddsNoCurrent,
        KeepsAttempts, SameActivations;
      if epoch == TWO64 - 1 {
        return Threw(GenerationExhausted);
      }
      epoch := epoch + 1;
      if authority == TWO64 - 1 {
        return Threw(GenerationExhausted);
      }
      authority := authority + 1;
      ghost var before := incarnations;
      SupersedeIncarnations();
      assert incarnations == SupersedeAll(before, true);
      slots := map[];
      return Done(epoch);
    }

    /** The loop of advance_epoch. */
    method SupersedeIncarnations()
      modifies `incarnations
      ensures incarnations.Keys == old(incarnations).Keys
      ensures forall k :: k in incarnations ==> incarnations[k] == SupersedeOne(old(incarnations)[k])
    {
      ghost var before := incarnations;
      var todo := incarnations.Keys;
      while todo != {}
        invariant incarnations.Keys == before.Keys && todo <= before.Keys
        invariant forall k :: k in before ==>
                    incarnations[k] == if k in todo then before[k] else SupersedeOne(before[k])
        decreases todo
      {
        var k :| k in todo;
        todo := todo - {k};
        var i := incarnations[k];
        if i.state.lifecycle == Running {
          incarnations := incarnations[k := i.(state := i.state.(recovery := Revalidating), isCurrent := false)];
        }
      }
    }

    /* ---- evidence ---- */

    /** The loop that adds up the stored records. */
    method TotalEvidence() returns (total: nat)
      ensures total == |EvidenceSlots(evidence)|
    {
      total := 0;
      var todo := evidence.Keys;
      ghost var done: set<u64> := {};
      NoneStored(evidence);
      while todo != {}
        invariant evidence.Keys == done + todo && done !! todo
        invariant total == |SlotsAmong(evidence, done)|
        decreases todo
      {
        var k :| k in todo;
        SlotsGrow(evidence, done, k);
        hide SlotsAmong;
        total := total + |evidence[k]|;
        done := done + {k};
        todo := todo - {k};
      }
      AllStored(evidence, done);
    }

    method CheckPublish(ev: Evidence) returns (check: Outcome<ErrorCode>)
      ensures check == PublishCheck(View(), ev)
    {
      hide EvidenceSlots;
      var key := ev.origin.incarnationId;
      if key !in incarnations {
        return Fail(UnknownIncarnation);
      }
      var i := incarnations[key];
      if i.state.registration == FencedRegistration || i.state.health == FencedHealth {
        return Fail(FencedWorker);
      }
      if i.workerId in fenced && i.workerBoot in fenced[i.workerId] {
        return Fail(FencedWorker);
      }
      if ev.coordinatorEpoch != epoch {
        return Fail(StaleEpoch);
      }
      var total := TotalEvidence();
      if total >= options.maxComponentEvidence {
        return Fail(BoundsExceeded);
      }
      return Pass;
    }

    method Publish(ev: Evidence, now: u64) returns (r: Ret)
      modifies `ids, `evidence, `incarnations
      ensures (old(View()).(ids := ids, evidence := evidence, incarnations := incarnations), r)
              == S.Publish(old(View()), ev, now)
    {
      var check := CheckPublish(ev);
      assert check.Pass? ==> ev.origin.incarnationId in incarnations;
      hide PublishCheck, EvidenceSlots, SameDefinitions, SameServing, KeepsFences, Continues, Evolves, Down, Fenced,
        AddsNoCurrent, KeepsAttempts, SameActivations;
      if check.Fail? {
        return Threw(check.error);
      }
      var key := ev.origin.incarnationId;
      ids := ids.(evidence := Bump(ids.evidence));
      var e := ev.(evidenceId := Bump(ids.evidence), evidenceGeneration := 1,
        measured := ev.measured.(observedAtNs := now));
      if key in evidence {
        evidence := evidence[key := evidence[key] + [e]];
      } else {
        evidence := evidence[key := [] + [e]];
      }
      var i := incarnations[key].(lastActivityNs := now);
      if (e.category == Backend || e.category == DeviceContext) && i.state.lifecycle == Starting {
        i := i.(state := i.state.(lifecycle := Running, health := Healthy));
      }
      assert i == ConfirmOne(old(incarnations)[key], e.category, now);
      hide ConfirmOne;
      incarnations := incarnations[key := i];
      return Done(e.evidenceId);
    }

    method InvalidateComponents(id: u64, reason: bytes) returns (r: Ret)
      modifies `evidence, `incarnations
      ensures (old(View()).(evidence := evidence, incarnations := incarnations), r)
              == S.InvalidateComponents(old(View()), id, reason)
    {
      hide SameDefinitions, SameServing, KeepsFences, Continues, Evolves, Down, AddsNoCurrent, KeepsAttempts,
        SameActivations;
      if id !in incarnations {
        return Threw(UnknownIncarnation);
      }
      if id in evidence {
        var es := evidence[id];
        for j := 0 to |es|
          invariant |es| == |old(evidence)[id]|
          invariant forall k :: 0 <= k < |es| ==>
                      es[k] == if k < j then DistrustOne(old(evidence)[id][k], reason) else old(evidence)[id][k]
        {
          es := es[j := es[j].(state := RevalidationRequired, invalidationReason := reason)];
        }
        assert es == Distrusted(old(evidence)[id], reason);
        evidence := evidence[id := es];
      }
      hide Distrusted;
      var i := incarnations[id];
      i := i.(state := i.state.(preparation := Invalidated));
      incarnations := incarnations[id := i];
      if i.readinessGeneration == TWO64 - 1 {
        return Threw(GenerationExhausted);
      }
      var j := i.(readinessGeneration := i.readinessGeneration + 1);
      assert old(incarnations)[id := i][id := j] == old(incarnations)[id := j];
      incarnations := incarnations[id := j];
      return Done(id);
    }

    /* ---- preparation ---- */

    /** The plan: what the readiness evaluator lists as missing, one step each, as far as the bound allows. */
    method MakePlan(i: Incarnation, id: u64, profileId: u64, target: DesiredResidency, now: u64) returns (plan: Plan)
      requires i.engineId in engines && profileId in profiles
      ensures plan == NewPlan(View(), i, id, profileId, target, now)
    {
      var p := profiles[profileId];
      var _, _, lists, _ := EvaluateReadiness(engines[i.engineId], p.requirements, EvidenceOf(View(), i.incarnationId),
        now);
      assert lists.missing == MissingFor(View(), p, i, now);
      hide MissingFor, ListsOf, Having;
      var steps: seq<PlanStep> := [];
      for n := 0 to |lists.missing|
        invariant |steps| == if n <= options.maxPlanSteps then n else options.maxPlanSteps
        invariant forall j :: 0 <= j < |steps| ==> steps[j] == Prepare(lists.missing[j])
      {
        if |steps| >= options.maxPlanSteps {
          break;
        }
        steps := steps + [Prepare(lists.missing[n])];
      }
      if steps == [] {
        steps := [WarmUp];
      }
      assert steps == PlanSteps(lists.missing, options.maxPlanSteps);
      plan := Plan(id, i.incarnationGeneration, profileId, p.profileGeneration, target, epoch, authority, i.sourceBoot,
        steps);
    }

    method CreatePlan(id: u64, profileId: u64, target: DesiredResidency, now: u64) returns (r: Ret)
      modifies `ids, `plans, `incarnations
      ensures (old(View()).(ids := ids, plans := plans, incarnations := incarnations), r)
              == S.CreatePlan(old(View()), id, profileId, target, now)
    {
      hide SameDefinitions, SameServing, SameEvidence, KeepsFences, Continues, AddsNoCurrent, KeepsAttempts,
        SameActivations;
      if id !in incarnations {
        return Threw(UnknownIncarnation);
      }
      var i := incarnations[id];
      if !i.isCurrent {
        return Threw(StaleIncarnation);
      }
      if profileId !in profiles {
        return Threw(UnknownProfile);
      }
      if |plans| >= options.maxPendingPreparation {
        return Threw(BoundsExceeded);
      }
      if i.engineId !in engines {
        return Threw(OutOfRange);
      }
      var plan := MakePlan(i, id, profileId, target, now);
      hide PlanSteps, MissingFor;
      ids := ids.(plan := Bump(ids.plan));
      var planId := Bump(ids.plan);
      plans := plans[planId := plan];
      incarnations := incarnations[id := i.(state := i.state.(preparation := Planned))];
      return Done(planId);
    }

    method BeginPreparation(planId: u64, id: u64, profileId: u64) returns (r: Ret)
      modifies `ids, `attempts, `activeAttempt, `incarnations
      ensures (old(View()).(ids := ids, attempts := attempts, activeAttempt := activeAttempt,
                            incarnations := incarnations), r)
              == S.BeginPreparation(old(View()), planId, id, profileId)
    {
      hide SameDefinitions, SameServing, SameEvidence, KeepsFences, Continues, AddsNoCurrent, KeepsAttempts,
        SameActivations;
      if planId !in plans {
        return Threw(UnknownAttempt);
      }
      if plans[planId].epoch != epoch {
        return Threw(PlanStale);
      }
      if id !in incarnations || !incarnations[id].isCurrent {
        return Threw(StaleIncarnation);
      }
      if id in activeAttempt {
        return Threw(InvalidState);
      }
      if |activeAttempt| >= options.maxPendingPreparation {
        return Threw(BoundsExceeded);
      }
      ids := ids.(attempt := Bump(ids.attempt));
      var key := Bump(ids.attempt);
      attempts := attempts[key := Attempt(planId, id, profileId, epoch, authority, Planned, false, false)];
      activeAttempt := activeAttempt[id := key];
      incarnations := incarnations[id := incarnations[id].(state :=
        incarnations[id].state.(preparation := Preparing))];
      return Done(key);
    }

    method CheckCompletePreparation(attemptId: u64) returns (check: Outcome<ErrorCode>)
      ensures check == CompletePreparationCheck(View(), attemptId)
    {
      if attemptId !in attempts {
        return Fail(UnknownAttempt);
      }
      var a := attempts[attemptId];
      if a.cancelled {
        return Fail(AttemptCancelled);
      }
      if a.epoch != epoch {
        return Fail(StaleEpoch);
      }
      if a.authority != authority {
        return Fail(StaleAuthority);
      }
      if a.incarnationId !in incarnations || !incarnations[a.incarnationId].isCurrent {
        return Fail(StaleIncarnation);
      }
      if a.profileId !in profiles {
        return Fail(UnknownProfile);
      }
      if incarnations[a.incarnationId].engineId !in engines {
        return Fail(UnknownEngine);
      }
      return Pass;
    }

    method CompletePreparation(attemptId: u64, now: u64) returns (r: Ret)
      modifies `attempts, `incarnations, `activeAttempt
      ensures (old(View()).(attempts := attempts, incarnations := incarnations, activeAttempt := activeAttempt), r)
              == S.CompletePreparation(old(View()), attemptId, now)
    {
      var check := CheckCompletePreparation(attemptId);
      if check.Fail? {
        return Threw(check.error);
      }
      var a := attempts[attemptId];
      var i := incarnations[a.incarnationId];
      var admits := Admits(a.profileId, i, now);
      hide CompletePreparationCheck, OutlookOf, SameDefinitions, SameServing, SameEvidence, KeepsFences, Continues,
        Evolves, Down, AddsNoCurrent, KeepsAttempts, SameActivations;
      if admits {
        attempts := attempts[attemptId := a.(state := Prepared, publishedReady := true)];
        if i.readinessGeneration == TWO64 - 1 {
          incarnations := incarnations[a.incarnationId := i.(state := i.state.(preparation := Prepared))];
          return Threw(GenerationExhausted);
        }
        incarnations := incarnations[a.incarnationId := i.(readinessGeneration := i.readinessGeneration + 1,
          state := i.state.(preparation := Prepared, observed := Warm))];
      } else {
        attempts := attempts[attemptId := a.(state := PreparationFailed)];
        incarnations := incarnations[a.incarnationId := i.(state := i.state.(preparation := PreparationFailed))];
      }
      activeAttempt := activeAttempt - {a.incarnationId};
      return Done(attemptId);
    }

    /** One call of the readiness evaluator: the outcome is READY or DEGRADED. */
    method Admits(profileId: u64, i: Incarnation, now: u64) returns (admits: bool)
      requires profileId in profiles && i.engineId in engines
      ensures admits == OutlookOf(View(), profiles[profileId], i, now).Admits()
    {
      var outcome, _, _, _ := EvaluateReadiness(engines[i.engineId], profiles[profileId].requirements,
        EvidenceOf(View(), i.incarnationId), now);
      return outcome.Admits();
    }

    method CancelPreparation(attemptId: u64) returns (r: Ret)
      modifies `attempts, `activeAttempt
      ensures (old(View()).(attempts := attempts, activeAttempt := activeAttempt), r)
              == S.CancelPreparation(old(View()), attemptId)
    {
      hide SameDefinitions, SameServing, SameEvidence, KeepsFences, Continues, AddsNoCurrent, KeepsAttempts,
        SameActivations;
      if attemptId !in attempts {
        return Threw(UnknownAttempt);
      }
      var a := attempts[attemptId];
      if a.publishedReady {
        return Threw(InvalidState);
      }
      attempts := attempts[attemptId := a.(cancelled := true, state := PreparationFailed)];
      activeAttempt := activeAttempt - {a.incarnationId};
      return Done(attemptId);
    }

    method RollbackPreparation(attemptId: u64) returns (r: Ret)
      modifies `attempts, `activeAttempt
      ensures (old(View()).(attempts := attempts, activeAttempt := activeAttempt), r)
              == S.RollbackPreparation(old(View()), attemptId)
    {
      hide SameDefinitions, SameServing, SameEvidence, KeepsFences, Continues, AddsNoCurrent, KeepsAttempts,
        SameActivations;
      if attemptId !in attempts {
        return Threw(UnknownAttempt);
      }
      var a := attempts[attemptId];
      attempts := attempts[attemptId := a.(state := PreparationFailed)];
      activeAttempt := activeAttempt - {a.incarnationId};
      return Done(attemptId);
    }

    /* ---- activation ---- */

    method CheckActivate(q: Request, now: u64) returns (check: Outcome<ErrorCode>)
      ensures check == ActivateCheck(View(), q, now)
    {
      hide OutlookOf;
      if q.authority != authority {
        return Fail(StaleAuthority);
      }
      if q.incarnationId !in incarnations {
        return Fail(UnknownIncarnation);
      }
      var i := incarnations[q.incarnationId];
      if i.state.health == FencedHealth || i.state.registration == FencedRegistration {
        return Fail(FencedWorker);
      }
      if i.state.lifecycle != Running {
        return Fail(InvalidState);
      }
      if i.readinessGeneration != q.readinessGeneration {
        return Fail(StaleGeneration);
      }
      if q.profileId != 0 {
        if q.profileId !in profiles {
          return Fail(UnknownProfile);
        }
        if i.engineId !in engines {
          return Fail(OutOfRange);
        }
        var admits := Admits(q.profileId, i, now);
        if !admits {
          return Fail(InvalidState);
        }
      }
      if q.slotId != 0 && q.slotId in slots && slots[q.slotId] != 0 && slots[q.slotId] != i.incarnationId {
        var holderDead := HolderDead(View(), slots[q.slotId]);
        if !holderDead {
          return Fail(ActivationConflict);
        }
      }
      return Pass;
    }

    method Activate(q: Request, now: u64) returns (r: Ret)
      modifies `slots, `ids, `activations, `currentByEngine, `incarnations
      ensures (old(View()).(slots := slots, ids := ids, activations := activations, currentByEngine := currentByEngine,
                            incarnations := incarnations), r)
              == S.Activate(old(View()), q, now)
    {
      var check := CheckActivate(q, now);
      assert check.Pass? ==> q.incarnationId in incarnations;
      hide ActivateCheck, KeepsAuthority, SameDefinitions, SameServing, SameEvidence, KeepsFences, Continues, Evolves,
        AddsNoCurrent, KeepsAttempts, SameActivations;
      if check.Fail? {
        return Threw(check.error);
      }
      var i := incarnations[q.incarnationId];
      if q.slotId != 0 {
        slots := slots[q.slotId := i.incarnationId];
      }
      ids := ids.(activation := Bump(ids.activation));
      var key := Bump(ids.activation);
      activations := activations[key := Activation(i.engineId, i.engineGeneration, i.incarnationId,
        i.incarnationGeneration, q.profileId, i.readinessGeneration, q.standbyGeneration, q.slotId,
        i.state.activation, true)];
      incarnations := incarnations[q.incarnationId := i.(isCurrent := true, state := i.state.(activation := Active))];
      currentByEngine := currentByEngine[i.engineId := i.incarnationId];
      return Done(key);
    }

    /* ---- serving uses ---- */

    method CheckAcquire(id: u64, w: Wanted, now: u64) returns (check: Outcome<ErrorCode>)
      ensures check == AcquireCheck(View(), id, w, now)
    {
      if id !in incarnations {
        return Fail(UnknownIncarnation);
      }
      var inc := incarnations[id];
      if !inc.isCurrent {
        return Fail(StaleIncarnation);
      }
      if inc.state.lifecycle != Running {
        return Fail(InvalidState);
      }
      if id in drains && drains[id].fenced {
        return Fail(UseAfterDrain);
      }
      if w.readinessGeneration != inc.readinessGeneration {
        return Fail(StaleGeneration);
      }
      if w.profileId !in profiles {
        return Fail(UnknownProfile);
      }
      if inc.engineId !in engines {
        return Fail(UnknownEngine);
      }
      var outcome, _, _, _ := EvaluateReadiness(engines[inc.engineId], profiles[w.profileId].requirements,
        EvidenceOf(View(), inc.incarnationId), now);
      if !outcome.Admits() {
        return Fail(InvalidState);
      }
      if activeUseCount >= options.maxActiveUses {
        return Fail(BoundsExceeded);
      }
      return Pass;
    }

    method Acquire(id: u64, w: Wanted, now: u64) returns (r: Ret)
      modifies `ids, `activeUses, `activeUseCount, `incarnations
      ensures (old(View()).(ids := ids, activeUses := activeUses, activeUseCount := activeUseCount,
                            incarnations := incarnations), r) == S.Acquire(old(View()), id, w, now)
    {
      var check := CheckAcquire(id, w, now);
      assert check.Pass? ==> id in incarnations;
      hide AcquireCheck, SameEvidence, KeepsFences, Continues, SameDrains, SameDefinitions, AddsNoCurrent,
        KeepsAttempts, SameActivations;
      if check.Fail? {
        return Threw(check.error);
      }
      var inc := incarnations[id];
      ids := ids.(use := Bump(ids.use));
      var use := Bump(ids.use);
      activeUses := activeUses[use := Use(inc.engineId, inc.engineGeneration, inc.incarnationId,
        inc.incarnationGeneration, w, false, Completed, now, 0, [97, 100, 109, 105, 116, 116, 101, 100])];
      activeUseCount := Bump(activeUseCount);
      incarnations := incarnations[id := inc.(lastActivityNs := now)];
      return Done(use);
    }

    /** The recount loop of release, request_drain and acknowledge_backend_cleanup. */
    method CountRemaining(id: u64) returns (remaining: u32)
      ensures remaining == Remaining(activeUses, id)
    {
      hide OpenFor;
      remaining := 0;
      var todo := activeUses.Keys;
      ghost var done: set<u64> := {};
      NoneOpen(activeUses, id);
      while todo != {}
        invariant done + todo == activeUses.Keys && done !! todo
        invariant remaining == |OpenAmong(activeUses, id, done)| % TWO32
        decreases todo
      {
        var k :| k in todo;
        OpenGrows(activeUses, id, done, k);
        hide OpenAmong;
        todo := todo - {k};
        done := done + {k};
        if activeUses[k].incarnationId == id && !activeUses[k].released {
          remaining := (remaining + 1) % TWO32;
        }
      }
      AllOpen(activeUses, id, done);
    }

    method Release(use: u64, id: u64, outcome: WorkOutcome, detail: bytes, now: u64) returns (r: Ret)
      modifies `activeUses, `activeUseCount, `drains
      ensures (old(View()).(activeUses := activeUses, activeUseCount := activeUseCount, drains := drains), r)
              == S.Release(old(View()), use, id, Closing(outcome, detail, now))
    {
      hide SameEvidence, KeepsFences, Continues, SameDefinitions, KeepsClosed, Remaining, AddsNoCurrent, KeepsAttempts,
        SameActivations;
      if use !in activeUses {
        return Threw(UnknownUse);
      }
      var u := activeUses[use];
      if u.released {
        return Threw(DuplicateRelease);
      }
      if u.incarnationId != id {
        return Threw(StaleIncarnation);
      }
      activeUses := activeUses[use :=
        u.(released := true, outcome := outcome, releasedAtNs := now, detail := detail)];
      if activeUseCount == 0 {
        return Threw(InvalidState);
      }
      activeUseCount := activeUseCount - 1;
      var remaining := CountRemaining(id);
      if id in drains && drains[id].fenced && remaining == 0 {
        if drains[id].ack {
          drains := drains[id := drains[id].(phase := Drained)];
        } else {
          drains := drains[id := drains[id].(phase := BackendCleanupPending)];
        }
      } else {
        assert id in drains ==> drains[id := drains[id]] == drains;
      }
      return Done(use);
    }

    /* ---- drain ---- */

    method RequestDrain(id: u64) returns (r: Ret)
      modifies `drains, `incarnations
      ensures (old(View()).(drains := drains, incarnations := incarnations), r) == S.RequestDrain(old(View()), id)
    {
      hide SameDefinitions, KeepsClosed, SameUses, SameEvidence, KeepsFences, Continues, Evolves, Down, Remaining,
        AddsNoCurrent, KeepsAttempts, SameActivations;
      if id !in incarnations {
        return Threw(UnknownIncarnation);
      }
      var d := if id in drains then drains[id] else NO_DRAIN;
      if d.generation == TWO64 - 1 {
        return Threw(GenerationExhausted);
      }
      d := d.(generation := d.generation + 1, fenced := true);
      var i := incarnations[id];
      incarnations := incarnations[id := i.(state :=
        i.state.(lifecycle := Draining, activation := DrainingActivation))];
      if d.phase == NoDrain {
        d := d.(phase := DrainRequested);
      }
      var remaining := CountRemaining(id);
      if remaining == 0 {
        d := d.(phase := BackendCleanupPending);
      } else {
        d := d.(phase := ActiveUseRemaining);
      }
      drains := drains[id := d];
      return Done(id);
    }

    method AcknowledgeCleanup(id: u64) returns (r: Ret)
      modifies `drains
      ensures (old(View()).(drains := drains), r) == S.AcknowledgeCleanup(old(View()), id)
    {
      hide SameDefinitions, KeepsClosed, SameUses, SameEvidence, KeepsFences, Continues, Remaining, AddsNoCurrent,
        KeepsAttempts, SameActivations;
      if id !in drains {
        return Threw(InvalidState);
      }
      var d := drains[id].(ack := true);
      var remaining := CountRemaining(id);
      if d.fenced && remaining == 0 {
        d := d.(phase := Drained);
      }
      drains := drains[id := d];
      return Done(id);
    }

    /* ---- replacement ---- */

    method BeginReplacement(plan: ReplacementPlan) returns (r: Ret)
      modifies `ids, `replacements
      ensures (old(View()).(ids := ids, replacements := replacements), r) == S.BeginReplacement(old(View()), plan)
    {
      hide SameServing, SameEvidence, KeepsFences, Continues, AddsNoCurrent, KeepsAttempts, SameActivations;
      if plan.epoch != epoch {
        return Threw(StaleEpoch);
      }
      if plan.authority != authority {
        return Threw(StaleAuthority);
      }
      if plan.candidateIncarnation !in incarnations
         || incarnations[plan.candidateIncarnation].state.lifecycle != Running {
        return Threw(StaleIncarnation);
      }
      if plan.oldIncarnation !in incarnations {
        return Threw(UnknownIncarnation);
      }
      if incarnations[plan.candidateIncarnation].incarnationId == incarnations[plan.oldIncarnation].incarnationId {
        return Threw(InvalidArgument);
      }
      ids := ids.(replacement := Bump(ids.replacement));
      var stored := plan.(replacementId := Bump(ids.replacement), replacementGeneration := 1,
        phase := PreparingReplacement, overlapAvailable := plan.overlapBytes == 0);
      replacements := replacements[stored.replacementId := stored];
      return Done(stored.replacementId);
    }

    method CommitCutover(rid: u64) returns (r: Ret)
      modifies `drains, `incarnations, `currentByEngine, `replacements
      ensures (old(View()).(drains := drains, incarnations := incarnations, currentByEngine := currentByEngine,
                            replacements := replacements), r)
              == S.CommitCutover(old(View()), rid)
    {
      hide KeepsClosed, SameUses, SameEvidence, KeepsFences, Continues, Evolves, Down, AddsNoCurrent, KeepsAttempts,
        SameActivations;
      if rid !in replacements {
        return Threw(NotFound);
      }
      var p := replacements[rid];
      if p.phase != PreparingReplacement {
        return Threw(InvalidState);
      }
      if p.candidateIncarnation !in incarnations || incarnations[p.candidateIncarnation].state.lifecycle != Running {
        return Threw(StaleIncarnation);
      }
      FenceOldIncarnation(p.oldIncarnation);
      hide DisplaceOld, FenceOld;
      var c := incarnations[p.candidateIncarnation];
      incarnations := incarnations[p.candidateIncarnation :=
        c.(isCurrent := true, state := c.state.(activation := Standby, lifecycle := Running))];
      currentByEngine := currentByEngine[c.engineId := c.incarnationId];
      replacements := replacements[rid := p.(phase := Cutover)];
      return Done(rid);
    }

    /** The old side of a cutover. */
    method FenceOldIncarnation(o: u64)
      modifies `drains, `incarnations
      ensures drains == FenceOld(old(View()), o) && incarnations == DisplaceOld(old(View()), o)
    {
      hide Evolves, Down;
      if o in incarnations {
        var i := incarnations[o];
        var d := if i.incarnationId in drains then drains[i.incarnationId] else NO_DRAIN;
        drains := drains[i.incarnationId := d.(fenced := true)];
        incarnations := incarnations[o := i.(isCurrent := false, state := i.state.(activation := FencedActivation))];
      }
    }

    method RetireOldIncarnation(rid: u64) returns (r: Ret)
      modifies `replacements, `incarnations
      ensures (old(View()).(replacements := replacements, incarnations := incarnations), r)
              == S.RetireOldIncarnation(old(View()), rid)
    {
      hide SameServing, SameEvidence, KeepsFences, Continues, Evolves, Down, AddsNoCurrent, KeepsAttempts,
        SameActivations;
      if rid !in replacements {
        return Threw(NotFound);
      }
      var p := replacements[rid];
      if p.oldIncarnation in incarnations {
        var o := incarnations[p.oldIncarnation];
        incarnations := incarnations[p.oldIncarnation :=
          o.(isCurrent := false, state := o.state.(lifecycle := Retired, health := LostHealth))];
      }
      replacements := replacements[rid := p.(phase := Complete)];
      return Done(rid);
    }

    /** The samples are kept, and the caller gets their aggregated cost. */
    method RecordCosts(costs: seq<CostComponent>, action: nat, model: Aggregation)
        returns (r: Ret, cost: Option<RecoveryCost>)
      modifies `costHistory
      ensures (old(View()).(costHistory := costHistory), r) == S.RecordCosts(old(View()), costs)
      ensures r.Done? <==> cost.Some?
      ensures cost.Some? ==> Aggregated(costs, action, model, cost.value)
    {
      hide SameDefinitions, SameServing, SameEvidence, KeepsFences, Continues, AddsNoCurrent, KeepsAttempts,
        SameActivations;
      if |costHistory| + |costs| > options.maxCostSamples {
        return Threw(BoundsExceeded), None;
      }
      costHistory := costHistory + costs;
      var aggregated := Aggregate(costs, action, model);
      return Done(0), Some(aggregated);
    }

    /* ---- persistence ---- */

    /** None when the writer refused a string that is too long. */
    method Serialize() returns (blob: Option<bytes>, ghost o: Orders)
      ensures Iterates(o, View())
      ensures blob.Some? <==> Blob.Writable(Snapshot(View(), o))
      ensures blob.Some? ==> blob.value == Blob.Encode(Snapshot(View(), o))
    {
      hide Blob.Writable, Blob.Encode, Listed, ListedEvidence, Enumerates;
      var es, eo := ListTable(engines);
      var ps, po := ListTable(profiles);
      var incs, io := ListTable(incarnations);
      var vs, vo := ListEvidence(evidence);
      var rs, ro := ListTable(replacements);
      o := Orders(eo, po, io, vo, ro);
      var saved := PersistentState(epoch, authority, registrationCounter, es, ps, incs, vs, rs, costHistory);
      assert saved == Snapshot(View(), o);
      blob := Blob.SerializePersistentState(saved);
    }

    /** Nothing is changed before the whole blob has been accepted. */
    method Load(blob: bytes) returns (r: Ret)
      modifies `epoch, `authority, `registrationCounter, `engines, `profiles, `incarnations, `evidence, `replacements,
        `costHistory, `currentByEngine, `ids
      ensures (old(View()).(epoch := epoch, authority := authority, registrationCounter := registrationCounter,
                            engines := engines, profiles := profiles, incarnations := incarnations,
                            evidence := evidence, replacements := replacements, costHistory := costHistory,
                            currentByEngine := currentByEngine, ids := ids), r)
              == LoadBlob(old(View()), blob)
    {
      hide Blob.Decode, Table, EvidenceTable, RestoreAll, SameDrains, KeepsFences, AddsNoCurrent, KeepsAttempts,
        SameActivations;
      var decoded := Blob.DeserializePersistentState(blob);
      if decoded.Refused? {
        return Threw(PersistenceCorrupt);
      }
      ApplyCounters(decoded.state);
      ApplyTables(decoded.state);
      assert LoadBlob(old(View()), blob) == (S.Load(old(View()), decoded.state), Done(0));
      hide LoadBlob;
      return Done(0);
    }

    method ApplyTables(saved: PersistentState)
      modifies `engines, `profiles, `incarnations, `evidence, `replacements
      ensures engines == Table(saved.engines, EngineKey) && profiles == Table(saved.profiles, ProfileKey)
      ensures incarnations == Table(RestoreAll(saved.incarnations), IncarnationKey)
      ensures evidence == EvidenceTable(saved.evidence)
      ensures replacements == Table(saved.replacements, ReplacementKey)
    {
      hide Table, EvidenceTable, RestoreAll;
      engines := BuildTable(saved.engines, EngineKey);
      profiles := BuildTable(saved.profiles, ProfileKey);
      incarnations := RestoreIncarnations(saved.incarnations);
      evidence := RestoreEvidences(saved.evidence);
      replacements := BuildTable(saved.replacements, ReplacementKey);
    }

    method ApplyCounters(saved: PersistentState)
      modifies `epoch, `authority, `registrationCounter, `costHistory, `currentByEngine, `ids
      ensures epoch == OrElse(saved.coordinatorEpoch, 1) && authority == OrElse(saved.authorityGeneration, 1)
      ensures registrationCounter == saved.registrationCounter && costHistory == saved.costHistory
      ensures currentByEngine == map[] && ids == Resumed(old(ids))
    {
      epoch := if saved.coordinatorEpoch > 0 then saved.coordinatorEpoch else 1;
      authority := if saved.authorityGeneration > 0 then saved.authorityGeneration else 1;
      registrationCounter := saved.registrationCounter;
      costHistory := saved.costHistory;
      currentByEngine := map[];
      ids := ids.(incarnation := 1_000_000, evidence := 1_000_000, use := 1_000_000, attempt := 1_000_000,
        plan := 1_000_000, activation := 1_000_000, replacement := 1_000_000, permit := 1_000_000);
    }
  }

  /* ---- the loops of serialize and load ---- */

  method BuildTable<T>(xs: seq<T>, key: T -> u64) returns (m: map<u64, T>)
    ensures m == Table(xs, key)
  {
    m := map[];
    for i := 0 to |xs|
      invariant m == Table(xs[..i], key)
    {
      assert xs[..i + 1][..i] == xs[..i];
      m := m[key(xs[i]) := xs[i]];
    }
    assert xs[..|xs|] == xs;
  }

  method RestoreIncarnations(xs: seq<Incarnation>) returns (m: map<u64, Incarnation>)
    ensures m == Table(RestoreAll(xs), IncarnationKey)
  {
    m := map[];
    for n := 0 to |xs|
      invariant m == Table(RestoreAll(xs[..n]), IncarnationKey)
    {
      var i := xs[n].(isCurrent := false, state := xs[n].state.(recovery := Revalidating, activation := Inactive,
        preparation := NeedsRevalidation));
      assert i == RestoreIncarnation(xs[n]);
      RestoreOneMore(xs, n);
      hide RestoreAll, RestoreIncarnation;
      m := m[i.incarnationId := i];
    }
    assert xs[..|xs|] == xs;
  }

  lemma RestoreOneMore(xs: seq<Incarnation>, n: nat)
    requires n < |xs|
    ensures Table(RestoreAll(xs[..n + 1]), IncarnationKey) ==
            Table(RestoreAll(xs[..n]), IncarnationKey)[xs[n].incarnationId := RestoreIncarnation(xs[n])]
  {
    var all := RestoreAll(xs[..n + 1]);
    assert |all| == n + 1 && all[n] == RestoreIncarnation(xs[n]) && all[n].incarnationId == xs[n].incarnationId;
    assert all[..n] == RestoreAll(xs[..n]);
    hide RestoreAll, RestoreIncarnation;
  }

  method RestoreEvidences(xs: seq<Evidence>) returns (m: map<u64, seq<Evidence>>)
    ensures m == EvidenceTable(xs)
  {
    m := map[];
    for n := 0 to |xs|
      invariant m == EvidenceTable(xs[..n])
    {
      assert xs[..n + 1][..n] == xs[..n];
      var k := xs[n].origin.incarnationId;
      if k !in m {
        m := m[k := []];
      }
      m := m[k := m[k] + [xs[n].(state := RevalidationRequired)]];
    }
    assert xs[..|xs|] == xs;
  }

  method ListTable<T>(m: map<u64, T>) returns (xs: seq<T>, ghost order: seq<u64>)
    ensures Enumerates(order, m.Keys)
    ensures xs == Listed(m, order)
  {
    xs, order := [], [];
    var todo := m.Keys;
    ghost var done: set<u64> := {};
    while todo != {}
      invariant m.Keys == done + todo && done !! todo
      invariant Enumerates(order, done) && xs == Listed(m, order)
      decreases todo
    {
      var k :| k in todo;
      EnumerationGrows(order, done, k);
      assert (order + [k])[..|order|] == order;
      xs := xs + [m[k]];
      order := order + [k];
      done := done + {k};
      todo := todo - {k};
    }
  }

  method ListEvidence(m: map<u64, seq<Evidence>>) returns (xs: seq<Evidence>, ghost order: seq<u64>)
    ensures Enumerates(order, m.Keys)
    ensures xs == ListedEvidence(m, order)
  {
    xs, order := [], [];
    var todo := m.Keys;
    ghost var done: set<u64> := {};
    while todo != {}
      invariant m.Keys == done + todo && done !! todo
      invariant Enumerates(order, done) && xs == ListedEvidence(m, order)
      decreases todo
    {
      var k :| k in todo;
      EnumerationGrows(order, done, k);
      assert (order + [k])[..|order|] == order;
      xs := xs + m[k];
      order := order + [k];
      done := done + {k};
      todo := todo - {k};
    }
  }

  /* ---- counting while walking a table ---- */

  function OpenAmong(uses: map<u64, Use>, id: u64, among: set<u64>): set<u64>
  {
    set u | u in among && u in uses && !uses[u].released && uses[u].incarnationId == id
  }

  lemma NoneOpen(uses: map<u64, Use>, id: u64)
    ensures OpenAmong(uses, id, {}) == {}
  {
  }

  lemma AllOpen(uses: map<u64, Use>, id: u64, among: set<u64>)
    requires among == uses.Keys
    ensures OpenAmong(uses, id, among) == OpenFor(uses, id)
  {
  }

  lemma OpenGrows(uses: map<u64, Use>, id: u64, among: set<u64>, k: u64)
    requires k !in among && k in uses
    ensures |OpenAmong(uses, id, among + {k})| == |OpenAmong(uses, id, among)|
            + if !uses[k].released && uses[k].incarnationId == id then 1 else 0
  {
    var more := if !uses[k].released && uses[k].incarnationId == id then {k} else {};
    assert OpenAmong(uses, id, among + {k}) == OpenAmong(uses, id, among) + more;
    hide OpenAmong;
  }

  function SlotsAmong(evidence: map<u64, seq<Evidence>>, among: set<u64>): set<(u64, int)>
  {
    set k, j | k in evidence && 0 <= j < |evidence[k]| && k in among :: (k, j)
  }

  lemma NoneStored(evidence: map<u64, seq<Evidence>>)
    ensures SlotsAmong(evidence, {}) == {}
  {
  }

  lemma AllStored(evidence: map<u64, seq<Evidence>>, among: set<u64>)
    requires among == evidence.Keys
    ensures SlotsAmong(evidence, among) == EvidenceSlots(evidence)
  {
  }

  function Row(k: u64, n: nat): set<(u64, int)>
  {
    set j | 0 <= j < n :: (k, j)
  }

  lemma {:induction false} RowCounts(k: u64, n: nat)
    ensures |Row(k, n)| == n
  {
    if n == 0 {
      assert Row(k, n) == {};
    } else {
      RowCounts(k, n - 1);
      assert Row(k, n) == Row(k, n - 1) + {(k, n - 1)};
    }
  }

  lemma SlotsGrow(evidence: map<u64, seq<Evidence>>, among: set<u64>, k: u64)
    requires k in evidence && k !in among
    ensures |SlotsAmong(evidence, among + {k})| == |SlotsAmong(evidence, among)| + |evidence[k]|
  {
    RowCounts(k, |evidence[k]|);
    assert SlotsAmong(evidence, among + {k}) == SlotsAmong(evidence, among) + Row(k, |evidence[k]|);
    assert SlotsAmong(evidence, among) !! Row(k, |evidence[k]|);
    hide SlotsAmong, Row;
  }

  /* ---- the loop of update_engine_config ---- */

  lemma NothingWalked(incs: map<u64, Incarnation>, engineId: u64)
    ensures InvalidateAll(incs, [], engineId) == (incs, Done(0))
    ensures Enumerates<u64>([], {})
  {
  }

  /** A walk that has not stopped goes on from what it has left. */
  lemma {:induction false} InvalidationWalks(incs: map<u64, Incarnation>, done: seq<u64>, more: seq<u64>, engineId: u64)
    requires InvalidateAll(incs, done, engineId).1.Done?
    ensures InvalidateAll(incs, done + more, engineId)
            == InvalidateAll(InvalidateAll(incs, done, engineId).0, more, engineId)
    decreases |done|
  {
    if done == [] {
      assert done + more == more;
    } else {
      assert (done + more)[1..] == done[1..] + more;
      hide Evolves, Down, InvalidateOne;
      if done[0] !in incs || incs[done[0]].engineId != engineId {
        InvalidationWalks(incs, done[1..], more, engineId);
      } else {
        InvalidationWalks(incs[done[0] := InvalidateOne(incs[done[0]])], done[1..], more, engineId);
      }
    }
  }

  lemma InvalidatesNext(incs: map<u64, Incarnation>, k: u64, rest: seq<u64>, engineId: u64)
    requires k in incs
    ensures incs[k].engineId != engineId ==> InvalidateAll(incs, [k], engineId) == (incs, Done(0))
    ensures incs[k].engineId == engineId && !Exhausted(incs[k].readinessGeneration) ==>
              InvalidateAll(incs, [k], engineId) == (incs[k := InvalidateOne(incs[k])], Done(0))
    ensures incs[k].engineId == engineId && Exhausted(incs[k].readinessGeneration) ==>
              InvalidateAll(incs, [k] + rest, engineId) ==
              (incs[k := InvalidateOne(incs[k])], Threw(GenerationExhausted))
  {
    hide Evolves, Down, InvalidateOne, Exhausted;
    assert [k][1..] == [];
  }

  /** One turn of the loop at k. */
  lemma WalkStep(before: map<u64, Incarnation>, order: seq<u64>, done: set<u64>, todo: set<u64>,
      incs: map<u64, Incarnation>, k: u64, engineId: u64)
    requires Enumerates(order, done) && done !! todo && k in todo && k in incs
    requires InvalidateAll(before, order, engineId) == (incs, Done(0))
    ensures Enumerates(order + [k], done + {k})
    ensures incs[k].engineId != engineId ==> InvalidateAll(before, order + [k], engineId) == (incs, Done(0))
    ensures incs[k].engineId == engineId && !Exhausted(incs[k].readinessGeneration) ==>
              InvalidateAll(before, order + [k], engineId) == (incs[k := InvalidateOne(incs[k])], Done(0))
    ensures Enumerates(order + ([k] + Enumeration(todo - {k})), done + todo)
    ensures incs[k].engineId == engineId && Exhausted(incs[k].readinessGeneration) ==>
              InvalidateAll(before, order + ([k] + Enumeration(todo - {k})), engineId)
              == (incs[k := InvalidateOne(incs[k])], Threw(GenerationExhausted))
  {
    hide InvalidateAll, Enumerates, Evolves, Down, InvalidateOne, Exhausted, Enumeration;
    var rest := Enumeration(todo - {k});
    EnumerationGrows(order, done, k);
    EnumerationJoins(order + [k], done + {k}, rest, todo - {k});
    assert done + {k} + (todo - {k}) == done + todo && order + [k] + rest == order + ([k] + rest);
    InvalidationWalks(before, order, [k], engineId);
    InvalidationWalks(before, order, [k] + rest, engineId);
    InvalidatesNext(incs, k, rest, engineId);
  }

  /* ---- enumerations ---- */

  /** Some enumeration of a finite set. */
  ghost function Enumeration(s: set<u64>): (order: seq<u64>)
    ensures Enumerates(order, s)
  {
    if s == {} then []
    else
      var k :| k in s;
      EnumerationGrows(Enumeration(s - {k}), s - {k}, k);
      Enumeration(s - {k}) + [k]
  }

  lemma EnumerationJoins(a: seq<u64>, s: set<u64>, b: seq<u64>, t: set<u64>)
    requires Enumerates(a, s) && Enumerates(b, t) && s !! t
    ensures Enumerates(a + b, s + t)
  {
    assert forall x :: x in a + b <==> x in a || x in b;
    assert forall i :: 0 <= i < |a| ==> a[i] in s;
    assert forall i :: 0 <= i < |b| ==> b[i] in t;
  }

  lemma EnumerationGrows(order: seq<u64>, s: set<u64>, k: u64)
    requires Enumerates(order, s) && k !in s
    ensures Enumerates(order + [k], s + {k})
    ensures k in s + {k} && s + {k} - {k} == s
  {
    assert forall x :: x in order + [k] <==> x in order || x == k;
  }
}
