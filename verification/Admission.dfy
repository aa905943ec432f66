/** What admission and activation look at, and what they do not (runtime.cpp:214-230, 358-536). */
module Admission {
  import opened Prelude
  import opened Errors
  import opened Records
  import opened ReadinessRules
  import opened RuntimeState
  import opened RuntimeRuns
  import opened Currency

  /* ---- activation records ---- */

  /** The same state after any history of activations: other records, slots and counters, another activation
      state of the incarnation. */
  function Reactivated(s: State, id: u64, activations: map<u64, Activation>, slots: map<u64, u64>, counter: u64,
      activation: ActivationState): State
    requires id in s.incarnations
  {
    var i := s.incarnations[id];
    s.(activations := activations, slots := slots, ids := s.ids.(activation := counter),
       incarnations := s.incarnations[id := i.(state := i.state.(activation := activation))])
  }

  /** Admission never compares activations: neither what is recorded about them, nor whether the
      incarnation is active, nor the activation generation and the execution id of the request decide. */
  lemma ActivationNeverCompared(s: State, id: u64, w: Wanted, now: u64, activations: map<u64, Activation>,
      slots: map<u64, u64>, counter: u64, activation: ActivationState, generation: u64, execution: u64)
    requires id in s.incarnations
    ensures AcquireCheck(Reactivated(s, id, activations, slots, counter, activation), id,
              w.(activationGeneration := generation, executionId := execution), now)
            == AcquireCheck(s, id, w, now)
  {
    var t := Reactivated(s, id, activations, slots, counter, activation);
    if w.profileId in s.profiles && s.incarnations[id].engineId in s.engines {
      assert OutlookOf(t, t.profiles[w.profileId], t.incarnations[id], now)
          == OutlookOf(s, s.profiles[w.profileId], s.incarnations[id], now);
    }
    hide OutlookOf;
  }

  /* ---- the engine of a profile ---- */

  /** The same state with one profile moved to another engine. */
  function Rehomed(s: State, profileId: u64, engineId: u64): State
    requires profileId in s.profiles
  {
    s.(profiles := s.profiles[profileId := s.profiles[profileId].(engineId := engineId)])
  }

  lemma OutlookRehomed(s: State, profileId: u64, engineId: u64, p: u64, i: Incarnation, now: u64)
    requires profileId in s.profiles && p in s.profiles && i.engineId in s.engines
    ensures OutlookOf(Rehomed(s, profileId, engineId), Rehomed(s, profileId, engineId).profiles[p], i, now)
            == OutlookOf(s, s.profiles[p], i, now)
  {
  }

  /** What admission and activation read, but for the records of profiles. */
  predicate SameButProfiles(s: State, t: State)
  {
    && t.incarnations == s.incarnations && t.engines == s.engines && t.profiles.Keys == s.profiles.Keys
    && t.drains == s.drains && t.slots == s.slots && t.authority == s.authority
    && t.activeUseCount == s.activeUseCount && t.options == s.options
  }

  lemma AdmitsAlike(s: State, t: State, id: u64, w: Wanted, now: u64)
    requires SameButProfiles(s, t)
    requires w.profileId in s.profiles && id in s.incarnations && s.incarnations[id].engineId in s.engines ==>
               OutlookOf(t, t.profiles[w.profileId], s.incarnations[id], now)
               == OutlookOf(s, s.profiles[w.profileId], s.incarnations[id], now)
    ensures AcquireCheck(t, id, w, now) == AcquireCheck(s, id, w, now)
  {
    hide OutlookOf;
  }

  lemma ActivatesAlike(s: State, t: State, q: Request, now: u64)
    requires SameButProfiles(s, t)
    requires q.profileId in s.profiles && q.incarnationId in s.incarnations
             && s.incarnations[q.incarnationId].engineId in s.engines ==>
               OutlookOf(t, t.profiles[q.profileId], s.incarnations[q.incarnationId], now)
               == OutlookOf(s, s.profiles[q.profileId], s.incarnations[q.incarnationId], now)
    ensures ActivateCheck(t, q, now) == ActivateCheck(s, q, now)
  {
    hide OutlookOf;
  }

  lemma CompletesAlike(s: State, profileId: u64, engineId: u64, attemptId: u64)
    requires profileId in s.profiles
    ensures CompletePreparationCheck(Rehomed(s, profileId, engineId), attemptId)
            == CompletePreparationCheck(s, attemptId)
    ensures SameButProfiles(s, Rehomed(s, profileId, engineId))
  {
  }

  /** Neither admission nor activation nor the completion of an attempt compares the engine of the profile
      with that of the incarnation: each passes for a profile of any other engine exactly when it passes
      for the incarnation's own, and an attempt is published on the same outlook. */
  lemma ProfileEngineNeverCompared(s: State, profileId: u64, engineId: u64, id: u64, w: Wanted, q: Request,
      attemptId: u64, now: u64)
    requires profileId in s.profiles
    ensures var t := Rehomed(s, profileId, engineId);
            && AcquireCheck(t, id, w, now) == AcquireCheck(s, id, w, now)
            && ActivateCheck(t, q, now) == ActivateCheck(s, q, now)
            && CompletePreparationCheck(t, attemptId) == CompletePreparationCheck(s, attemptId)
    ensures forall p, i: Incarnation :: p in s.profiles && i.engineId in s.engines ==>
              OutlookOf(Rehomed(s, profileId, engineId), Rehomed(s, profileId, engineId).profiles[p], i, now)
              == OutlookOf(s, s.profiles[p], i, now)
  {
    var t := Rehomed(s, profileId, engineId);
    CompletesAlike(s, profileId, engineId, attemptId);
    hide Rehomed, SameButProfiles, AcquireCheck, ActivateCheck, CompletePreparationCheck, OutlookOf;
    forall p, i: Incarnation | p in s.profiles && i.engineId in s.engines
      ensures OutlookOf(Rehomed(s, profileId, engineId), Rehomed(s, profileId, engineId).profiles[p], i, now)
              == OutlookOf(s, s.profiles[p], i, now)
    {
      OutlookRehomed(s, profileId, engineId, p, i, now);
    }
    AdmitsAlike(s, t, id, w, now);
    ActivatesAlike(s, t, q, now);
  }

  /* ---- revalidation ---- */

  /** The same state with the incarnation in another state of recovery. */
  function Recovering(s: State, id: u64, recovery: RecoveryState): State
    requires id in s.incarnations
  {
    var i := s.incarnations[id];
    s.(incarnations := s.incarnations[id := i.(state := i.state.(recovery := recovery))])
  }

  lemma OutlookRecovering(s: State, id: u64, recovery: RecoveryState, p: u64, now: u64)
    requires id in s.incarnations && p in s.profiles && s.incarnations[id].engineId in s.engines
    ensures var t := Recovering(s, id, recovery);
            OutlookOf(t, t.profiles[p], t.incarnations[id], now) == OutlookOf(s, s.profiles[p], s.incarnations[id], now)
  {
  }

  /** The holder of a slot is another incarnation, or blocks nobody. */
  lemma SlotsRecovering(s: State, id: u64, recovery: RecoveryState, slot: u64)
    requires Keyed(s) && id in s.incarnations
    ensures SlotTaken(Recovering(s, id, recovery), slot, id) <==> SlotTaken(s, slot, id)
  {
  }

  lemma ActivatesRecovering(s: State, q: Request, now: u64, recovery: RecoveryState)
    requires Keyed(s) && q.incarnationId in s.incarnations
    ensures ActivateCheck(Recovering(s, q.incarnationId, recovery), q, now) == ActivateCheck(s, q, now)
  {
    SlotsRecovering(s, q.incarnationId, recovery, q.slotId);
    if s.incarnations[q.incarnationId].engineId in s.engines && q.profileId in s.profiles {
      OutlookRecovering(s, q.incarnationId, recovery, q.profileId, now);
    }
    hide OutlookOf, SlotTaken;
  }

  lemma AdmitsRecovering(s: State, id: u64, w: Wanted, now: u64, recovery: RecoveryState)
    requires id in s.incarnations
    ensures AcquireCheck(Recovering(s, id, recovery), id, w, now) == AcquireCheck(s, id, w, now)
  {
    var t := Recovering(s, id, recovery);
    assert t.profiles == s.profiles && t.engines == s.engines && t.drains == s.drains && t.options == s.options;
    assert t.activeUseCount == s.activeUseCount && id in t.incarnations;
    assert t.incarnations[id].engineId == s.incarnations[id].engineId;
    if s.incarnations[id].engineId in s.engines && w.profileId in s.profiles {
      OutlookRecovering(s, id, recovery, w.profileId, now);
    }
    var j := t.incarnations[id];
    assert j == s.incarnations[id].(state := s.incarnations[id].state.(recovery := j.state.recovery));
    hide Recovering, OutlookOf, AcquireCheck;
    SameAdmission(s, t, id, w, now);
  }

  lemma SameAdmission(s: State, t: State, id: u64, w: Wanted, now: u64)
    requires t.profiles == s.profiles && t.engines == s.engines && t.drains == s.drains && t.options == s.options
    requires t.activeUseCount == s.activeUseCount && id in s.incarnations && id in t.incarnations
    requires var i, j := s.incarnations[id], t.incarnations[id];
             j == i.(state := i.state.(recovery := j.state.recovery))
    requires w.profileId in s.profiles && s.incarnations[id].engineId in s.engines ==>
               OutlookOf(t, t.profiles[w.profileId], t.incarnations[id], now)
               == OutlookOf(s, s.profiles[w.profileId], s.incarnations[id], now)
    ensures AcquireCheck(t, id, w, now) == AcquireCheck(s, id, w, now)
  {
    hide OutlookOf;
  }

  /** Neither activation nor admission asks whether the incarnation waits for revalidation. */
  lemma RecoveryNeverCompared(s: State, q: Request, w: Wanted, now: u64, recovery: RecoveryState)
    requires Keyed(s) && q.incarnationId in s.incarnations
    ensures var t := Recovering(s, q.incarnationId, recovery);
            && ActivateCheck(t, q, now) == ActivateCheck(s, q, now)
            && AcquireCheck(t, q.incarnationId, w, now) == AcquireCheck(s, q.incarnationId, w, now)
  {
    ActivatesRecovering(s, q, now, recovery);
    AdmitsRecovering(s, q.incarnationId, w, now, recovery);
    hide Recovering, ActivateCheck, AcquireCheck;
  }

  /* ---- the readiness query ---- */

  datatype Report = Ranked(outcome: ReadinessOutcome) | StillWaiting | NoReport(code: ErrorCode)

  /** The incarnation waits to be confirmed under the present authority. */
  predicate Waits(i: Incarnation)
  {
    i.state.recovery.Revalidating? || i.state.recovery.AwaitingAuthority?
  }

  /** evaluate_readiness of the runtime, which callers may ask before they acquire. */
  function Query(s: State, id: u64, profileId: u64, now: u64): Report
  {
    if id !in s.incarnations then NoReport(UnknownIncarnation)
    else if profileId !in s.profiles then NoReport(UnknownProfile)
    else
      var i, p := s.incarnations[id], s.profiles[profileId];
      if p.engineId != i.engineId then NoReport(IncompatibleProfile)
      else if i.engineId !in s.engines then NoReport(UnknownEngine)
      else if Waits(i) then StillWaiting
      else Ranked(OutlookOf(s, p, i, now))
  }

  /** The query reports that the incarnation may serve the profile. */
  predicate ReportsServing(s: State, id: u64, profileId: u64, now: u64)
  {
    var r := Query(s, id, profileId, now);
    r.Ranked? && r.outcome.Admits()
  }

  /** What is admitted or activated for a profile is what the query reports as serving exactly when the
      profile belongs to the incarnation's engine and the incarnation does not wait for revalidation. */
  lemma AdmittedUnreported(s: State, id: u64, w: Wanted, q: Request, now: u64)
    ensures AcquireCheck(s, id, w, now).Pass? ==>
              id in s.incarnations && w.profileId in s.profiles
              && (ReportsServing(s, id, w.profileId, now) <==>
                    s.profiles[w.profileId].engineId == s.incarnations[id].engineId && !Waits(s.incarnations[id]))
    ensures ActivateCheck(s, q, now).Pass? && q.profileId != 0 ==>
              q.incarnationId in s.incarnations && q.profileId in s.profiles
              && (ReportsServing(s, q.incarnationId, q.profileId, now) <==>
                    && s.profiles[q.profileId].engineId == s.incarnations[q.incarnationId].engineId
                    && !Waits(s.incarnations[q.incarnationId]))
  {
    hide OutlookOf;
  }

  /* ---- a new epoch ---- */

  predicate CurrentAt(s: State, k: u64)
  {
    k in s.incarnations && s.incarnations[k].isCurrent
  }

  /** The call makes k current, whatever it was. */
  predicate Makes(s: State, op: Op, k: u64)
  {
    match op
    case OpRegister(inc, permitId, _) =>
      RegisterCheck(s, inc, permitId).Pass? && !EngineServed(s, inc.engineId) && k == Bump(Bump(s.ids.incarnation))
    case OpRevalidate(id) => id in s.incarnations && k == id
    case OpActivate(q, now) => ActivateCheck(s, q, now).Pass? && k == q.incarnationId
    case OpCommitCutover(rid) => CutoverCheck(s, rid).Pass? && k == s.replacements[rid].candidateIncarnation
    case _ => false
  }

  lemma RegisterMakes(s: State, op: Op, k: u64)
    requires op.OpRegister? && !CurrentAt(s, k)
    ensures CurrentAt(Step(s, op).0, k) <==> Makes(s, op, k)
  {
    hide Step, Register, Revalidate, Activate, CommitCutover, RegisterCheck, ActivateCheck, EngineServed,
      SameUses, SameDrains, SameServing, SameDefinitions, SameEvidence, KeepsAuthority, KeepsFences, KeepsClosed,
      Continues, AddsNoCurrent, KeepsAttempts, SameActivations;
    StepRegister(s, op);
    RegisterShape(s, op.inc, op.permitId, op.now);
  }

  lemma RevalidateMakes(s: State, op: Op, k: u64)
    requires op.OpRevalidate? && !CurrentAt(s, k)
    ensures CurrentAt(Step(s, op).0, k) <==> Makes(s, op, k)
  {
    hide Step, Register, Revalidate, Activate, CommitCutover, RegisterCheck, ActivateCheck, EngineServed,
      SameUses, SameDrains, SameServing, SameDefinitions, SameEvidence, KeepsAuthority, KeepsFences, KeepsClosed,
      Continues, AddsNoCurrent, KeepsAttempts, SameActivations;
    StepRevalidate(s, op);
    RevalidateShape(s, op.id);
  }

  lemma ActivateMakes(s: State, op: Op, k: u64)
    requires op.OpActivate? && !CurrentAt(s, k)
    ensures CurrentAt(Step(s, op).0, k) <==> Makes(s, op, k)
  {
    hide Step, Register, Revalidate, Activate, CommitCutover, RegisterCheck, ActivateCheck, EngineServed,
      SameUses, SameDrains, SameServing, SameDefinitions, SameEvidence, KeepsAuthority, KeepsFences, KeepsClosed,
      Continues, AddsNoCurrent, KeepsAttempts, SameActivations;
    StepActivate(s, op);
    ActivateShape(s, op.request, op.now);
  }

  lemma CutoverMakes(s: State, op: Op, k: u64)
    requires op.OpCommitCutover? && !CurrentAt(s, k)
    ensures CurrentAt(Step(s, op).0, k) <==> Makes(s, op, k)
  {
    hide Step, Register, Revalidate, Activate, CommitCutover, RegisterCheck, ActivateCheck, EngineServed,
      SameUses, SameDrains, SameServing, SameDefinitions, SameEvidence, KeepsAuthority, KeepsFences, KeepsClosed,
      Continues, AddsNoCurrent, KeepsAttempts, SameActivations;
    StepCutover(s, op);
    CutoverIncarnations(s, op.rid);
  }

  lemma LoadMakesNone(s: State, saved: PersistentState, k: u64)
    ensures !CurrentAt(Load(s, saved), k)
  {
    LoadFields(s, saved);
    hide Load, SameDrains, KeepsFences, RestoreAll, Table;
    TableIsKeyed(RestoreAll(saved.incarnations), IncarnationKey);
    RestoredNotCurrent(saved.incarnations);
  }

  /** Who was not current becomes so exactly by one of these four calls. */
  lemma BecomesCurrentBy(s: State, op: Op, k: u64)
    requires !CurrentAt(s, k)
    ensures CurrentAt(Step(s, op).0, k) <==> Makes(s, op, k)
  {
    hide Step, Makes, SameUses, SameDrains, SameDefinitions, SameEvidence, KeepsAuthority, KeepsFences, KeepsClosed,
      Continues, KeepsAttempts, SameActivations, RegisterCheck, ActivateCheck, CutoverCheck, EngineServed;
    if op.OpRegister? {
      RegisterMakes(s, op, k);
    } else if op.OpRevalidate? {
      RevalidateMakes(s, op, k);
    } else if op.OpActivate? {
      ActivateMakes(s, op, k);
    } else if op.OpCommitCutover? {
      CutoverMakes(s, op, k);
    } else if op.OpLoad? {
      StepLoad(s, op);
      LoadMakesNone(s, op.saved, k);
      NothingMade(s, op, k);
    } else {
      NothingMade(s, op, k);
    }
  }

  lemma NothingMade(s: State, op: Op, k: u64)
    requires !Promotes(op)
    ensures !Makes(s, op, k)
  {
    hide RegisterCheck, ActivateCheck, CutoverCheck, EngineServed;
  }

  /** Some call of the run makes k current. */
  ghost predicate MadeDuring(s: State, ops: seq<Op>, k: u64)
    decreases |ops|
  {
    ops != [] && (Makes(s, ops[0], k) || MadeDuring(Step(s, ops[0]).0, ops[1..], k))
  }

  lemma {:induction false} CurrentWasMade(s: State, ops: seq<Op>, k: u64)
    requires !CurrentAt(s, k) && CurrentAt(Run(s, ops), k)
    ensures MadeDuring(s, ops, k)
    decreases |ops|
  {
    if ops != [] {
      BecomesCurrentBy(s, ops[0], k);
      hide Step, Makes, CurrentAt;
      if !CurrentAt(Step(s, ops[0]).0, k) {
        CurrentWasMade(Step(s, ops[0]).0, ops[1..], k);
      }
    }
  }

  lemma AdmittedIsCurrent(s: State, k: u64, w: Wanted, now: u64)
    requires Acquire(s, k, w, now).1.Done?
    ensures CurrentAt(s, k) && s.incarnations[k].state.lifecycle.Running?
  {
    hide OutlookOf, SameEvidence, SameDefinitions, SameDrains, KeepsAuthority, KeepsFences, Continues, AddsNoCurrent,
      KeepsAttempts, SameActivations;
  }

  /** After the epoch advanced nobody is current but incarnations that were so and were not running. */
  lemma Superseded(s: State, k: u64)
    requires AdvanceEpoch(s).1.Done?
    ensures CurrentAt(AdvanceEpoch(s).0, k) <==> CurrentAt(s, k) && !s.incarnations[k].state.lifecycle.Running?
    ensures CurrentAt(AdvanceEpoch(s).0, k) ==>
              !AdvanceEpoch(s).0.incarnations[k].state.lifecycle.Running?
    ensures AdvanceEpoch(s).0.epoch == s.epoch + 1
  {
    hide SameDefinitions, SameServing, SameEvidence, KeepsAuthority, KeepsFences, Continues, AddsNoCurrent,
      KeepsAttempts, SameActivations;
  }

  /** After the epoch advanced, in every continuation, load included, a use is admitted only on an incarnation
      that a registration, a revalidation, an activation or a cutover made current since, or that was
      current at the advance without running. Right after the advance nothing is admitted. */
  lemma EpochStopsAdmission(s: State, ops: seq<Op>, k: u64, w: Wanted, now: u64)
    requires AdvanceEpoch(s).1.Done? && Acquire(Run(AdvanceEpoch(s).0, ops), k, w, now).1.Done?
    ensures ops != []
    ensures MadeDuring(AdvanceEpoch(s).0, ops, k)
            || (CurrentAt(s, k) && !s.incarnations[k].state.lifecycle.Running?)
  {
    var t := AdvanceEpoch(s).0;
    Superseded(s, k);
    hide AdvanceEpoch, Acquire, MadeDuring;
    AdmittedIsCurrent(Run(t, ops), k, w, now);
    assert ops == [] ==> Run(t, ops) == t;
    hide Run;
    if !CurrentAt(t, k) {
      CurrentWasMade(t, ops, k);
    }
  }

  /** The four calls need not look at anything new: in the new epoch an activation with the new authority
      passes exactly when it would have passed before the advance with the slots free. */
  lemma ActivationSurvivesEpoch(s: State, q: Request, now: u64)
    requires AdvanceEpoch(s).1.Done?
    ensures var t := AdvanceEpoch(s).0;
            ActivateCheck(t, q.(authority := t.authority), now)
            == ActivateCheck(s.(slots := map[]), q.(authority := s.authority), now)
  {
    var t := AdvanceEpoch(s).0;
    EpochKeeps(s, q.incarnationId);
    hide AdvanceEpoch, ActivateCheck;
    SameVerdict(s.(slots := map[]), t, q.(authority := s.authority), q.(authority := t.authority), now);
  }

  lemma SameVerdict(s: State, t: State, q: Request, r: Request, now: u64)
    requires q == r.(authority := q.authority) && q.authority == s.authority && r.authority == t.authority
    requires t.engines == s.engines && t.profiles == s.profiles && t.evidence == s.evidence
    requires s.slots == map[] && t.slots == map[] && t.incarnations.Keys == s.incarnations.Keys
    requires q.incarnationId in s.incarnations ==>
               var i, j := s.incarnations[q.incarnationId], t.incarnations[q.incarnationId];
               j == i.(isCurrent := j.isCurrent, state := i.state.(recovery := j.state.recovery))
    ensures ActivateCheck(t, r, now) == ActivateCheck(s, q, now)
  {
    if q.incarnationId in s.incarnations && s.incarnations[q.incarnationId].engineId in s.engines
       && q.profileId in s.profiles {
      assert OutlookOf(t, t.profiles[q.profileId], t.incarnations[q.incarnationId], now)
          == OutlookOf(s, s.profiles[q.profileId], s.incarnations[q.incarnationId], now);
    }
    hide OutlookOf;
  }

  lemma EpochKeeps(s: State, k: u64)
    requires AdvanceEpoch(s).1.Done?
    ensures var t := AdvanceEpoch(s).0;
            && t.engines == s.engines && t.profiles == s.profiles && t.evidence == s.evidence && t.slots == map[]
            && t.incarnations.Keys == s.incarnations.Keys
            && (k in s.incarnations ==>
                  var i, j := s.incarnations[k], t.incarnations[k];
                  && j == i.(isCurrent := j.isCurrent, state := i.state.(recovery := j.state.recovery))
                  && (i.state.lifecycle.Running? ==> j.state.recovery.Revalidating?))
  {
    hide SameServing, KeepsAuthority, KeepsFences, Continues, AddsNoCurrent, KeepsAttempts, SameActivations;
  }

  /** Hence an incarnation that the advance sent to revalidation serves again without it: if it could be
      activated before, then activating it in the new epoch succeeds and admits a use on the evidence of
      the old one, while it still waits for revalidation. */
  lemma OldEvidenceServesAgain(s: State, q: Request, w: Wanted, now: u64)
    requires AdvanceEpoch(s).1.Done? && Keyed(s) && q.authority == s.authority
    requires ActivateCheck(s.(slots := map[]), q, now).Pass? && q.profileId != 0
    requires w.profileId == q.profileId && w.readinessGeneration == q.readinessGeneration
    requires !AdmissionClosed(s, q.incarnationId) && s.activeUseCount < s.options.maxActiveUses
    ensures var t := AdvanceEpoch(s).0;
            var r := Activate(t, q.(authority := t.authority), now);
            && r.1.Done? && r.0.evidence == s.evidence && AcquireCheck(r.0, q.incarnationId, w, now).Pass?
            && q.incarnationId in r.0.incarnations
            && r.0.incarnations[q.incarnationId].state.recovery.Revalidating?
  {
    var t := AdvanceEpoch(s).0;
    ActivationSurvivesEpoch(s, q, now);
    EpochKeeps(s, q.incarnationId);
    assert SameServing(s, t) && KeepsFences(s, t);
    hide AdvanceEpoch;
    ActivatedAdmits(t, q.(authority := t.authority), w, now);
    hide Activate, ActivateCheck, AcquireCheck;
  }

  lemma ActivatedAdmits(t: State, q: Request, w: Wanted, now: u64)
    requires Keyed(t) && ActivateCheck(t, q, now).Pass? && q.profileId != 0
    requires w.profileId == q.profileId && w.readinessGeneration == q.readinessGeneration
    requires !AdmissionClosed(t, q.incarnationId) && t.activeUseCount < t.options.maxActiveUses
    ensures q.incarnationId in t.incarnations
    ensures var r := Activate(t, q, now);
            && r.1.Done? && r.0.evidence == t.evidence && AcquireCheck(r.0, q.incarnationId, w, now).Pass?
            && q.incarnationId in r.0.incarnations
            && r.0.incarnations[q.incarnationId].state.recovery == t.incarnations[q.incarnationId].state.recovery
  {
    ActivateShape(t, q, now);
    var r := Activate(t, q, now).0;
    assert SameServing(t, r) && SameDefinitions(t, r) && SameEvidence(t, r) && KeepsFences(t, r);
    hide Activate;
    var i := t.incarnations[q.incarnationId];
    assert OutlookOf(r, r.profiles[w.profileId], r.incarnations[q.incarnationId], now)
        == OutlookOf(t, t.profiles[q.profileId], i, now);
    hide OutlookOf;
  }
}
