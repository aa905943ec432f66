/** Recovery is conservative over whole runs: evidence restored by load never again serves. */
module Conservative {
  import opened Prelude
  import opened Errors
  import opened Records
  import opened ReadinessRules
  import opened RuntimeState
  import opened RuntimeRuns
  import opened Accounting

  /** The first n records of k need revalidation. */
  ghost predicate Distrusts(s: State, k: u64, n: nat)
  {
    && n <= |EvidenceOf(s, k)|
    && forall j :: 0 <= j < n ==> EvidenceOf(s, k)[j].state == RevalidationRequired
  }

  lemma {:induction false} TableDistrusts(xs: seq<Evidence>)
    ensures forall k :: k in EvidenceTable(xs) ==>
              forall e :: e in EvidenceTable(xs)[k] ==> e.state == RevalidationRequired && e.origin.incarnationId == k
    decreases |xs|
  {
    if xs != [] {
      TableDistrusts(xs[..|xs| - 1]);
    }
  }

  /** load distrusts everything it restores. */
  lemma LoadDistrusts(s: State, saved: PersistentState, k: u64)
    ensures Distrusts(Load(s, saved), k, |EvidenceOf(Load(s, saved), k)|)
  {
    TableDistrusts(saved.evidence);
    hide EvidenceTable, Table, RestoreAll, SameDrains, KeepsFences, AddsNoCurrent, KeepsAttempts, SameActivations;
  }

  lemma DistrustStep(s: State, op: Op, k: u64, n: nat)
    requires Distrusts(s, k, n) && !op.OpLoad?
    ensures Distrusts(Step(s, op).0, k, n)
  {
    hide Step, Publish, InvalidateComponents, SameUses, SameDrains, SameServing, KeepsClosed, KeepsFences, Continues,
      Stamped, PublishCheck, AddsNoCurrent, KeepsAttempts, SameActivations;
    if op.OpPublish? {
      StepPublish(s, op);
      PublishShape(s, op.ev, op.now);
    } else if op.OpInvalidateComponents? {
      StepInvalidate(s, op);
      InvalidateShape(s, op.id, op.reason);
    }
  }

  lemma {:induction false} DistrustLasts(s: State, ops: seq<Op>, k: u64, n: nat)
    requires Distrusts(s, k, n) && forall op :: op in ops ==> !op.OpLoad?
    ensures Distrusts(Run(s, ops), k, n)
    decreases |ops|
  {
    if ops != [] {
      DistrustStep(s, ops[0], k, n);
      hide Step, Distrusts;
      DistrustLasts(Step(s, ops[0]).0, ops[1..], k, n);
    }
  }

  /** If a profile evaluates to READY or DEGRADED at any time after a load, the record chosen for each
      requirement that is not optional stands behind all restored ones: it was published since. */
  lemma ServesOnNewEvidence(s: State, saved: PersistentState, ops: seq<Op>, i: Incarnation, p: ReadinessProfile,
      now: u64, r: ProfileRequirement)
    requires forall op :: op in ops ==> !op.OpLoad?
    requires var t := Run(Load(s, saved), ops); i.engineId in t.engines && OutlookOf(t, p, i, now).Admits()
    requires r in p.requirements && !r.kind.Optional?
    ensures var k := i.incarnationId;
            var b := Best(EvidenceOf(Run(Load(s, saved), ops), k), r.category, r.subject, []);
            b.Some? && |EvidenceOf(Load(s, saved), k)| <= b.value
  {
    var t, k := Run(Load(s, saved), ops), i.incarnationId;
    LoadDistrusts(s, saved, k);
    DistrustLasts(Load(s, saved), ops, k, |EvidenceOf(Load(s, saved), k)|);
    hide Run, Load, Best;
    AdmissionRests(t.engines[i.engineId], p.requirements, EvidenceOf(t, k), now, r);
  }

  lemma AdmittedEvaluates(s: State, id: u64, w: Wanted, now: u64)
    requires Acquire(s, id, w, now).1.Done?
    ensures id in s.incarnations && w.profileId in s.profiles && s.incarnations[id].engineId in s.engines
    ensures OutlookOf(s, s.profiles[w.profileId], s.incarnations[id], now).Admits()
  {
    hide OutlookOf, SameEvidence, KeepsFences, Continues, SameDrains, AddsNoCurrent, KeepsAttempts, SameActivations;
  }

  /** Hence no use is admitted after a load on restored evidence alone. */
  lemma AdmitsOnNewEvidence(s: State, saved: PersistentState, ops: seq<Op>, id: u64, w: Wanted,
      now: u64, r: ProfileRequirement)
    requires Keyed(s) && forall op :: op in ops ==> !op.OpLoad?
    requires Acquire(Run(Load(s, saved), ops), id, w, now).1.Done?
    requires var t := Run(Load(s, saved), ops); w.profileId in t.profiles && r in t.profiles[w.profileId].requirements
    requires !r.kind.Optional?
    ensures var b := Best(EvidenceOf(Run(Load(s, saved), ops), id), r.category, r.subject, []);
            b.Some? && |EvidenceOf(Load(s, saved), id)| <= b.value
  {
    var t := Run(Load(s, saved), ops);
    AdmittedEvaluates(t, id, w, now);
    LoadKeyed(s, saved);
    KeyedRun(Load(s, saved), ops);
    hide Run, Load, Best, Acquire, OutlookOf;
    ServesOnNewEvidence(s, saved, ops, t.incarnations[id], t.profiles[w.profileId], now, r);
  }

  lemma LoadKeyed(s: State, saved: PersistentState)
    requires Keyed(s)
    ensures Keyed(Load(s, saved))
  {
    hide Load, Step;
    KeyedStep(s, OpLoad(saved));
    StepLoad(s, OpLoad(saved));
  }
}
