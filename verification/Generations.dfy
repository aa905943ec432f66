/** Readiness generations over whole runs: they never go down, four operations raise them, and a
    generation read before one of these is dead. */
module Generations {
  import opened Prelude
  import opened Errors
  import opened Records
  import opened RuntimeState
  import opened RuntimeRuns

  /** Every incarnation id handed out is at most the counter plus one, and n more fit below 2^64. */
  predicate FreshIncarnations(s: State, n: nat)
  {
    (forall k :: k in s.incarnations ==> k <= s.ids.incarnation + 1) && s.ids.incarnation + 1 + n < TWO64
  }

  /** Nothing disappears and everything evolves. */
  ghost predicate Grows(s: State, t: State)
  {
    forall k :: k in s.incarnations ==> k in t.incarnations && Evolves(s.incarnations[k], t.incarnations[k])
  }

  lemma GenerationStep(s: State, op: Op, n: nat)
    requires FreshIncarnations(s, n + 1) && !op.OpLoad?
    ensures Grows(s, Step(s, op).0) && FreshIncarnations(Step(s, op).0, n)
  {
    hide Step, Register, MarkRunning, Revalidate, SameUses, SameDrains, SameServing, SameEvidence, KeepsClosed,
      KeepsFences, RegisterCheck, Down, AddsNoCurrent, KeepsAttempts, SameActivations;
    if op.OpRegister? {
      StepRegister(s, op);
      RegisterShape(s, op.inc, op.permitId, op.now);
    } else if op.OpMarkRunning? {
      StepMarkRunning(s, op);
      MarkRunningShape(s, op.id, op.now);
    } else if op.OpRevalidate? {
      StepRevalidate(s, op);
      RevalidateShape(s, op.id);
    }
  }

  /** In every run without load, no incarnation disappears, changes its identities or lowers its
      readiness generation. */
  lemma {:induction false} GenerationsNeverDrop(s: State, ops: seq<Op>)
    requires FreshIncarnations(s, |ops|) && forall op :: op in ops ==> !op.OpLoad?
    ensures Grows(s, Run(s, ops))
    decreases |ops|
  {
    if ops != [] {
      var t := Step(s, ops[0]).0;
      GenerationStep(s, ops[0], |ops| - 1);
      hide Step, FreshIncarnations;
      GenerationsNeverDrop(t, ops[1..]);
      GrowsTransitive(s, t, Run(t, ops[1..]));
      hide Grows;
    }
  }

  lemma GrowsTransitive(s: State, t: State, u: State)
    requires Grows(s, t) && Grows(t, u)
    ensures Grows(s, u)
  {
  }

  /** A stale generation admits and activates nothing. */
  lemma StaleRefused(s: State, k: u64, w: Wanted, q: Request, now: u64)
    requires k in s.incarnations && w.readinessGeneration < s.incarnations[k].readinessGeneration
    requires q.incarnationId == k && q.readinessGeneration < s.incarnations[k].readinessGeneration
    ensures Acquire(s, k, w, now).1.Threw?
    ensures Activate(s, q, now).1.Threw?
  {
    assert AcquireCheck(s, k, w, now).Fail? && ActivateCheck(s, q, now).Fail?
    by {
      hide OutlookOf;
    }
    hide AcquireCheck, ActivateCheck, SameServing, SameDrains, SameEvidence, KeepsFences, Continues, AddsNoCurrent,
      KeepsAttempts, SameActivations;
  }

  /** A generation below the present one never again admits a use or activates, in any continuation
      without load. */
  lemma StaleForever(s: State, ops: seq<Op>, k: u64, w: Wanted, q: Request, now: u64)
    requires FreshIncarnations(s, |ops|) && forall op :: op in ops ==> !op.OpLoad?
    requires k in s.incarnations && w.readinessGeneration < s.incarnations[k].readinessGeneration
    requires q.incarnationId == k && q.readinessGeneration < s.incarnations[k].readinessGeneration
    ensures Acquire(Run(s, ops), k, w, now).1.Threw?
    ensures Activate(Run(s, ops), q, now).1.Threw?
  {
    GenerationsNeverDrop(s, ops);
    hide Run, FreshIncarnations, Acquire, Activate, SameServing, SameDrains, SameEvidence, KeepsFences, Continues,
      AddsNoCurrent, KeepsAttempts, SameActivations;
    StaleRefused(Run(s, ops), k, w, q, now);
  }

  /* ---- the four operations that raise a generation ---- */

  lemma RevalidationRaises(s: State, k: u64)
    requires Revalidate(s, k).1.Done?
    ensures k in s.incarnations && k in Revalidate(s, k).0.incarnations
    ensures Revalidate(s, k).0.incarnations[k].readinessGeneration == s.incarnations[k].readinessGeneration + 1
  {
    RevalidateShape(s, k);
    hide Revalidate, SameServing, SameEvidence, KeepsFences, AddsNoCurrent, KeepsAttempts, SameActivations;
  }

  lemma InvalidationRaises(s: State, k: u64, reason: bytes)
    requires InvalidateComponents(s, k, reason).1.Done?
    ensures k in s.incarnations && k in InvalidateComponents(s, k, reason).0.incarnations
    ensures InvalidateComponents(s, k, reason).0.incarnations[k].readinessGeneration
            == s.incarnations[k].readinessGeneration + 1
  {
    InvalidateShape(s, k, reason);
    hide InvalidateComponents, SameServing, KeepsFences, Continues, AddsNoCurrent, KeepsAttempts, SameActivations;
  }

  /** Completing an attempt that passes its checks raises the generation exactly when the profile admits. */
  lemma PublicationRaises(s: State, attemptId: u64, now: u64)
    requires CompletePreparationCheck(s, attemptId).Pass?
    ensures attemptId in s.attempts
    ensures var a := s.attempts[attemptId];
            a.incarnationId in s.incarnations && a.profileId in s.profiles
            && s.incarnations[a.incarnationId].engineId in s.engines
    ensures var a := s.attempts[attemptId];
            var i := s.incarnations[a.incarnationId];
            var t := CompletePreparation(s, attemptId, now).0;
            var admits := OutlookOf(s, s.profiles[a.profileId], i, now).Admits();
            && a.incarnationId in t.incarnations
            && t.incarnations[a.incarnationId].readinessGeneration
               == if admits then Tried(i.readinessGeneration) else i.readinessGeneration
  {
    CompletionShape(s, attemptId, now);
    hide CompletePreparation, OutlookOf, SameServing, SameEvidence, KeepsFences, Continues, AddsNoCurrent,
      KeepsAttempts, SameActivations;
  }

  lemma CompletionShape(s: State, attemptId: u64, now: u64)
    requires CompletePreparationCheck(s, attemptId).Pass?
    ensures attemptId in s.attempts
    ensures var a := s.attempts[attemptId];
            a.incarnationId in s.incarnations && a.profileId in s.profiles
            && s.incarnations[a.incarnationId].engineId in s.engines
    ensures var a := s.attempts[attemptId];
            var i := s.incarnations[a.incarnationId];
            CompletePreparation(s, attemptId, now).0.incarnations ==
            s.incarnations[a.incarnationId := PublishOne(i, OutlookOf(s, s.profiles[a.profileId], i, now).Admits())]
  {
    hide OutlookOf, SameServing, SameEvidence, KeepsFences, Continues, FinishIf, PublishOne, CompleteOne,
      AddsNoCurrent, KeepsAttempts, SameActivations;
  }

  /* ---- attempts ---- */

  /** Every attempt id handed out is at most the counter plus one, and n more fit below 2^64. */
  predicate FreshAttempts(s: State, n: nat)
  {
    (forall a :: a in s.attempts ==> a <= s.ids.attempt + 1) && s.ids.attempt + 1 + n < TWO64
  }

  predicate CancelledAttempt(s: State, a: u64)
  {
    a in s.attempts && s.attempts[a].cancelled
  }

  /** Attempts stay, and those cancelled stay cancelled. */
  ghost predicate AttemptsKept(s: State, t: State)
  {
    forall a :: a in s.attempts ==> a in t.attempts && (s.attempts[a].cancelled ==> t.attempts[a].cancelled)
  }

  lemma BeginKeepsAttempts(s: State, planId: u64, id: u64, profileId: u64, n: nat)
    requires FreshAttempts(s, n + 1)
    ensures var t := BeginPreparation(s, planId, id, profileId).0; AttemptsKept(s, t) && FreshAttempts(t, n)
  {
    hide BeginPreparationCheck, SameDefinitions, SameServing, SameEvidence, KeepsFences, Continues, AddsNoCurrent,
      SameActivations;
  }

  lemma AttemptStep(s: State, op: Op, n: nat)
    requires FreshAttempts(s, n + 1) && !op.OpLoad?
    ensures AttemptsKept(s, Step(s, op).0) && FreshAttempts(Step(s, op).0, n)
  {
    hide Step, BeginPreparation, SameUses, SameDrains, SameDefinitions, SameServing, SameEvidence, KeepsFences,
      KeepsClosed, KeepsAuthority, Continues, AddsNoCurrent, SameActivations;
    if op.OpBeginPreparation? {
      StepBeginPreparation(s, op);
      BeginKeepsAttempts(s, op.planId, op.id, op.profileId, n);
    }
  }

  /** In every run without load a cancelled attempt stays cancelled. */
  lemma {:induction false} CancellationLasts(s: State, ops: seq<Op>, attemptId: u64)
    requires FreshAttempts(s, |ops|) && CancelledAttempt(s, attemptId) && forall op :: op in ops ==> !op.OpLoad?
    ensures CancelledAttempt(Run(s, ops), attemptId)
    decreases |ops|
  {
    if ops != [] {
      AttemptStep(s, ops[0], |ops| - 1);
      hide Step, FreshAttempts;
      CancellationLasts(Step(s, ops[0]).0, ops[1..], attemptId);
    }
  }

  /** An attempt that was cancelled is never completed again: in every continuation without load its
      completion is refused and changes nothing. */
  lemma CancelledForGood(s: State, ops: seq<Op>, attemptId: u64, now: u64)
    requires FreshAttempts(s, |ops|) && forall op :: op in ops ==> !op.OpLoad?
    requires CancelPreparation(s, attemptId).1.Done?
    ensures var t := Run(CancelPreparation(s, attemptId).0, ops);
            CompletePreparation(t, attemptId, now) == (t, Threw(AttemptCancelled))
  {
    CancelMarks(s, attemptId);
    hide CancelPreparation;
    var t := CancelPreparation(s, attemptId).0;
    CancellationLasts(t, ops, attemptId);
    hide Run;
    CancelledRefused(Run(t, ops), attemptId, now);
    hide CompletePreparation;
  }

  lemma CancelMarks(s: State, attemptId: u64)
    ensures CancelPreparation(s, attemptId).1.Done? ==> CancelledAttempt(CancelPreparation(s, attemptId).0, attemptId)
  {
    hide SameDefinitions, SameServing, SameEvidence, KeepsFences, Continues, AddsNoCurrent, SameActivations;
  }

  lemma CancelledRefused(s: State, attemptId: u64, now: u64)
    requires CancelledAttempt(s, attemptId)
    ensures CompletePreparation(s, attemptId, now) == (s, Threw(AttemptCancelled))
  {
    hide OutlookOf, FinishIf, PublishOne, SameDefinitions, SameServing, SameEvidence, KeepsFences, Continues,
      AddsNoCurrent, SameActivations;
  }

  /** Rolling an attempt back does not stop it: it can be completed afterwards exactly as if nothing had
      happened. */
  lemma RollbackDoesNotStop(s: State, attemptId: u64)
    ensures CompletePreparationCheck(RollbackPreparation(s, attemptId).0, attemptId)
            == CompletePreparationCheck(s, attemptId)
  {
    hide SameDefinitions, SameServing, SameEvidence, KeepsFences, Continues, AddsNoCurrent, SameActivations;
  }

  /** What a loop over all incarnations of an engine leaves, whatever the iteration order: each one
      invalidated exactly once, and nothing else touched, unless a generation was exhausted. */
  lemma {:induction false} InvalidateAllOnce(incs: map<u64, Incarnation>, order: seq<u64>, todo: set<u64>,
      engineId: u64)
    requires Enumerates(order, todo) && todo <= incs.Keys
    ensures InvalidateAll(incs, order, engineId).1.Done? <==>
              forall k :: k in todo && incs[k].engineId == engineId ==> !Exhausted(incs[k].readinessGeneration)
    ensures InvalidateAll(incs, order, engineId).1.Done? ==>
              forall k :: k in incs ==>
                var touched := k in todo && incs[k].engineId == engineId;
                InvalidateAll(incs, order, engineId).0[k] == if touched then InvalidateOne(incs[k]) else incs[k]
    decreases |order|
  {
    if order != [] {
      EnumerationTail(order, todo);
      var k := order[0];
      hide InvalidateOne, Down, Exhausted;
      if incs[k].engineId != engineId {
        InvalidateAllOnce(incs, order[1..], todo - {k}, engineId);
      } else if !Exhausted(incs[k].readinessGeneration) {
        InvalidateAllOnce(incs[k := InvalidateOne(incs[k])], order[1..], todo - {k}, engineId);
      }
    } else {
      assert todo == {} by {
        assert forall x :: x in todo ==> x in order;
      }
    }
  }

  /** A new configuration raises the generation of every incarnation of the engine and of no other. */
  lemma ConfigurationRaises(s: State, engineId: u64, generation: u64, order: seq<u64>)
    requires Enumerates(order, s.incarnations.Keys)
    requires UpdateEngineConfig(s, engineId, generation, order).1.Done?
    ensures var t := UpdateEngineConfig(s, engineId, generation, order).0;
            && t.incarnations.Keys == s.incarnations.Keys
            && engineId in t.engines && t.engines[engineId].configGeneration == generation
            && forall k :: k in s.incarnations ==>
                 var raise := if s.incarnations[k].engineId == engineId then 1 else 0;
                 t.incarnations[k].readinessGeneration == s.incarnations[k].readinessGeneration + raise
  {
    InvalidateAllOnce(s.incarnations, order, s.incarnations.Keys, engineId);
    hide InvalidateAll, SameServing, SameEvidence, KeepsFences, Enumerates, AddsNoCurrent, KeepsAttempts,
      SameActivations;
  }

  /* ---- what raising a generation is for ---- */

  /** The four calls that raise the generation of k. */
  ghost predicate Raises(s: State, op: Op, k: u64)
  {
    match op
    case OpRevalidate(id) => id == k && Revalidate(s, id).1.Done?
    case OpInvalidateComponents(id, reason) => id == k && InvalidateComponents(s, id, reason).1.Done?
    case OpCompletePreparation(attemptId, now) => Publishes(s, attemptId, now, k)
    case OpUpdateEngineConfig(engineId, generation, order) =>
      && Enumerates(order, s.incarnations.Keys) && UpdateEngineConfig(s, engineId, generation, order).1.Done?
      && k in s.incarnations && s.incarnations[k].engineId == engineId
    case _ => false
  }

  /** The attempt is about k, passes its checks, and is published. */
  predicate Publishes(s: State, attemptId: u64, now: u64, k: u64)
  {
    && CompletePreparationCheck(s, attemptId).Pass? && s.attempts[attemptId].incarnationId == k
    && OutlookOf(s, s.profiles[s.attempts[attemptId].profileId], s.incarnations[k], now).Admits()
    && !Exhausted(s.incarnations[k].readinessGeneration)
  }

  lemma PublishingRaises(s: State, attemptId: u64, now: u64, k: u64)
    requires Publishes(s, attemptId, now, k)
    ensures var t := CompletePreparation(s, attemptId, now).0;
            && k in s.incarnations && k in t.incarnations
            && t.incarnations[k].readinessGeneration == s.incarnations[k].readinessGeneration + 1
  {
    PublicationRaises(s, attemptId, now);
    hide CompletePreparation, OutlookOf;
  }

  lemma RaisesByOne(s: State, op: Op, k: u64)
    requires Raises(s, op, k)
    ensures k in s.incarnations && k in Step(s, op).0.incarnations
    ensures Step(s, op).0.incarnations[k].readinessGeneration == s.incarnations[k].readinessGeneration + 1
  {
    hide Step, Revalidate, InvalidateComponents, CompletePreparation, UpdateEngineConfig, Publishes, SameUses,
      SameDrains, SameDefinitions, SameServing, SameEvidence, KeepsAuthority, KeepsFences, KeepsClosed, Continues,
      AddsNoCurrent, KeepsAttempts, SameActivations;
    match op {
      case OpRevalidate(id) =>
        StepRevalidate(s, op);
        RevalidationRaises(s, k);
      case OpInvalidateComponents(id, reason) =>
        StepInvalidate(s, op);
        InvalidationRaises(s, k, reason);
      case OpCompletePreparation(attemptId, now) =>
        StepCompletePreparation(s, op);
        PublishingRaises(s, attemptId, now, k);
      case OpUpdateEngineConfig(engineId, generation, order) =>
        StepUpdateEngineConfig(s, op);
        ConfigurationRaises(s, engineId, generation, order);
    }
  }

  /** A token that names the generation before a revalidation, an invalidation, a publication or a new
      configuration is void: in every continuation without load it neither admits a use nor activates. */
  lemma TokensDie(s: State, op: Op, ops: seq<Op>, k: u64, w: Wanted, q: Request, now: u64)
    requires FreshIncarnations(s, |ops| + 1) && Raises(s, op, k) && forall o :: o in ops ==> !o.OpLoad?
    requires k in s.incarnations && w.readinessGeneration <= s.incarnations[k].readinessGeneration
    requires q.incarnationId == k && q.readinessGeneration <= s.incarnations[k].readinessGeneration
    ensures Acquire(Run(Step(s, op).0, ops), k, w, now).1.Threw?
    ensures Activate(Run(Step(s, op).0, ops), q, now).1.Threw?
  {
    hide Raises, FreshIncarnations, Acquire, Activate, Run;
    Raised(s, op, k, |ops|);
    hide Step;
    StaleForever(Step(s, op).0, ops, k, w, q, now);
  }

  lemma Raised(s: State, op: Op, k: u64, n: nat)
    requires FreshIncarnations(s, n + 1) && Raises(s, op, k) && k in s.incarnations
    ensures FreshIncarnations(Step(s, op).0, n) && k in Step(s, op).0.incarnations
    ensures s.incarnations[k].readinessGeneration < Step(s, op).0.incarnations[k].readinessGeneration
  {
    assert !op.OpLoad?;
    RaisesByOne(s, op, k);
    hide *;
    GenerationStep(s, op, n);
  }
}
