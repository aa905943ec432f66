/** Invalidated evidence never serves again (runtime.cpp:660-670): the counterpart of what load promises. */
module Invalidation {
  import opened Prelude
  import opened Errors
  import opened Records
  import opened ReadinessRules
  import opened RuntimeState
  import opened RuntimeRuns
  import opened Conservative
  import opened Generations

  /** What invalidation does to the records: each one of the incarnation needs revalidation and carries the
      reason, and is otherwise as it was; those of other incarnations are as they were. */
  lemma InvalidationIsExact(s: State, k: u64, reason: bytes)
    requires k in s.incarnations
    ensures var t := InvalidateComponents(s, k, reason).0;
            && |EvidenceOf(t, k)| == |EvidenceOf(s, k)|
            && (forall j :: 0 <= j < |EvidenceOf(s, k)| ==>
                  EvidenceOf(t, k)[j]
                  == EvidenceOf(s, k)[j].(state := RevalidationRequired, invalidationReason := reason))
            && (forall i :: i != k ==> EvidenceOf(t, i) == EvidenceOf(s, i))
  {
    InvalidateShape(s, k, reason);
    hide InvalidateComponents;
  }

  lemma InvalidationDistrusts(s: State, k: u64, reason: bytes)
    requires k in s.incarnations
    ensures Distrusts(InvalidateComponents(s, k, reason).0, k, |EvidenceOf(s, k)|)
  {
    InvalidationIsExact(s, k, reason);
    hide InvalidateComponents, EvidenceOf;
  }

  /** Whatever admits stands on a record behind those that are distrusted. */
  lemma ServesPast(u: State, k: u64, n: nat, i: Incarnation, p: ReadinessProfile, now: u64, r: ProfileRequirement)
    requires Distrusts(u, k, n) && i.incarnationId == k && i.engineId in u.engines
    requires OutlookOf(u, p, i, now).Admits() && r in p.requirements && !r.kind.Optional?
    ensures var b := Best(EvidenceOf(u, k), r.category, r.subject, []); b.Some? && n <= b.value
  {
    hide Best, EvidenceOf;
    AdmissionRests(u.engines[i.engineId], p.requirements, EvidenceOf(u, k), now, r);
  }

  /** Right after a successful invalidation no profile with a binding requirement evaluates to READY or
      DEGRADED on the incarnation. */
  lemma NothingServesNow(s: State, k: u64, reason: bytes, i: Incarnation, p: ReadinessProfile, now: u64,
      r: ProfileRequirement)
    requires InvalidateComponents(s, k, reason).1.Done? && i.incarnationId == k
    requires i.engineId in InvalidateComponents(s, k, reason).0.engines
    requires r in p.requirements && !r.kind.Optional?
    ensures !OutlookOf(InvalidateComponents(s, k, reason).0, p, i, now).Admits()
  {
    InvalidateShape(s, k, reason);
    InvalidationIsExact(s, k, reason);
    InvalidationDistrusts(s, k, reason);
    var t := InvalidateComponents(s, k, reason).0;
    hide InvalidateComponents, OutlookOf, EvidenceOf, Distrusts;
    if OutlookOf(t, p, i, now).Admits() {
      ServesPast(t, k, |EvidenceOf(s, k)|, i, p, now, r);
    }
  }

  /** The state some way after an invalidation of k. */
  ghost function Later(s: State, k: u64, reason: bytes, ops: seq<Op>): State
  {
    Run(InvalidateComponents(s, k, reason).0, ops)
  }

  lemma StillDistrusted(s: State, k: u64, reason: bytes, ops: seq<Op>)
    requires k in s.incarnations && Keyed(s) && forall op :: op in ops ==> !op.OpLoad?
    ensures Distrusts(Later(s, k, reason, ops), k, |EvidenceOf(s, k)|) && Keyed(Later(s, k, reason, ops))
  {
    InvalidationDistrusts(s, k, reason);
    KeyedStep(s, OpInvalidateComponents(k, reason));
    StepInvalidate(s, OpInvalidateComponents(k, reason));
    hide Step, InvalidateComponents, Keyed, Distrusts, Run;
    var t := InvalidateComponents(s, k, reason).0;
    DistrustLasts(t, ops, k, |EvidenceOf(s, k)|);
    KeyedRun(t, ops);
  }

  lemma ActivatedEvaluates(s: State, q: Request, now: u64)
    requires ActivateCheck(s, q, now).Pass? && q.profileId != 0
    ensures q.incarnationId in s.incarnations && q.profileId in s.profiles
    ensures s.incarnations[q.incarnationId].engineId in s.engines
    ensures OutlookOf(s, s.profiles[q.profileId], s.incarnations[q.incarnationId], now).Admits()
  {
    hide OutlookOf;
  }

  /** A use is admitted on k, k is activated, or an attempt on k is published, each for the profile. */
  ghost predicate Relies(u: State, k: u64, profileId: u64, w: Wanted, q: Request, attemptId: u64, now: u64)
  {
    || (Acquire(u, k, w, now).1.Done? && profileId == w.profileId)
    || (ActivateCheck(u, q, now).Pass? && q.incarnationId == k && profileId == q.profileId != 0)
    || (Publishes(u, attemptId, now, k) && profileId == u.attempts[attemptId].profileId)
  }

  lemma ReliedOn(u: State, k: u64, profileId: u64, w: Wanted, q: Request, attemptId: u64, now: u64)
    requires Relies(u, k, profileId, w, q, attemptId, now)
    ensures k in u.incarnations && profileId in u.profiles && u.incarnations[k].engineId in u.engines
    ensures OutlookOf(u, u.profiles[profileId], u.incarnations[k], now).Admits()
  {
    hide OutlookOf, Acquire, ActivateCheck;
    if Acquire(u, k, w, now).1.Done? && profileId == w.profileId {
      AdmittedEvaluates(u, k, w, now);
    } else if ActivateCheck(u, q, now).Pass? && q.incarnationId == k && profileId == q.profileId != 0 {
      ActivatedEvaluates(u, q, now);
    }
  }

  /** In every continuation without load, whatever relies on a profile for k rests, for each of its binding
      requirements, on a record published after the invalidation. */
  lemma ServesOnLaterEvidence(s: State, k: u64, reason: bytes, ops: seq<Op>, profileId: u64, w: Wanted, q: Request,
      attemptId: u64, now: u64, r: ProfileRequirement)
    requires k in s.incarnations && Keyed(s) && forall op :: op in ops ==> !op.OpLoad?
    requires Relies(Later(s, k, reason, ops), k, profileId, w, q, attemptId, now)
    requires profileId in Later(s, k, reason, ops).profiles
    requires r in Later(s, k, reason, ops).profiles[profileId].requirements && !r.kind.Optional?
    ensures var b := Best(EvidenceOf(Later(s, k, reason, ops), k), r.category, r.subject, []);
            b.Some? && |EvidenceOf(s, k)| <= b.value
  {
    var u := Later(s, k, reason, ops);
    StillDistrusted(s, k, reason, ops);
    hide Later, Distrusts, EvidenceOf, Best, OutlookOf, Relies;
    ReliedOn(u, k, profileId, w, q, attemptId, now);
    ServesPast(u, k, |EvidenceOf(s, k)|, u.incarnations[k], u.profiles[profileId], now, r);
  }
}
