/** Every registered incarnation answers to a permit (runtime.cpp:110-177): one permit each, consumed, for the
    same worker boot, epoch and authority. */
module Permits {
  import opened Prelude
  import opened Errors
  import opened Records
  import opened RuntimeState
  import opened RuntimeRuns
  import opened Registration
  import opened Generations

  /** The permit was spent on this incarnation. */
  predicate Covers(p: Permit, i: Incarnation)
  {
    && p.consumed && p.workerId == i.workerId && p.workerBoot == i.workerBoot
    && p.epoch == i.coordinatorEpoch && p.authority == i.authorityGeneration
  }

  /** `spent` names for each incarnation its own permit. */
  ghost predicate Traced(s: State, spent: map<u64, u64>)
  {
    && spent.Keys == s.incarnations.Keys
    && (forall k :: k in spent ==> spent[k] in s.permits && Covers(s.permits[spent[k]], s.incarnations[k]))
    && (forall j, k :: j in spent && k in spent && j != k ==> spent[j] != spent[k])
  }

  /** Permits of the present epoch carry the present authority, and none is of a later epoch. */
  ghost predicate UpToNow(s: State)
  {
    forall p :: p in s.permits ==>
      s.permits[p].epoch <= s.epoch && (s.permits[p].epoch == s.epoch ==> s.permits[p].authority == s.authority)
  }

  /** Permits and incarnations evolve, and both keep their keys but for additions. */
  lemma StillTraced(s: State, t: State, spent: map<u64, u64>)
    requires Traced(s, spent) && PermitsKept(s, t) && t.incarnations.Keys == s.incarnations.Keys
    requires forall k :: k in s.incarnations ==> Evolves(s.incarnations[k], t.incarnations[k])
    ensures Traced(t, spent)
  {
  }

  /** A registration traces the new incarnation to the permit it used. */
  lemma RegisterTraces(s: State, inc: Incarnation, permitId: u64, now: u64, spent: map<u64, u64>, n: nat)
      returns (after: map<u64, u64>)
    requires Traced(s, spent) && UpToNow(s) && FreshIncarnations(s, n + 1)
    ensures Traced(Register(s, inc, permitId, now).0, after)
  {
    after := spent;
    RegisterShape(s, inc, permitId, now);
    if RegisterCheck(s, inc, permitId).Pass? {
      var id := Bump(Bump(s.ids.incarnation));
      after := spent[id := permitId];
      UsedPermit(s, inc, permitId, now);
      hide Register, RegisterCheck, EngineServed, BootTaken, Traced, UpToNow, KeepsAuthority, SameDefinitions,
        SameServing, SameEvidence, KeepsFences, KeepsAttempts, SameActivations;
      TracedWith(s, Register(s, inc, permitId, now).0, id, permitId, spent);
    }
  }

  /** What the checks say of the permit, and what registration does to the permits. */
  lemma UsedPermit(s: State, inc: Incarnation, permitId: u64, now: u64)
    requires RegisterCheck(s, inc, permitId).Pass?
    ensures permitId in s.permits
    ensures var p := s.permits[permitId];
            !p.consumed && p.workerId == inc.workerId && p.workerBoot == inc.workerBoot && p.epoch == s.epoch
    ensures Register(s, inc, permitId, now).0.permits
            == s.permits[permitId := s.permits[permitId].(consumed := true)]
  {
    hide BootTaken, EngineServed, KeepsAuthority, SameDefinitions, SameServing, SameEvidence, KeepsFences, AdmitOne,
      KeepsAttempts, SameActivations;
  }

  lemma TracedWith(s: State, t: State, id: u64, permitId: u64, spent: map<u64, u64>)
    requires Traced(s, spent) && UpToNow(s) && id !in s.incarnations
    requires permitId in s.permits && !s.permits[permitId].consumed && s.permits[permitId].epoch == s.epoch
    requires t.permits == s.permits[permitId := s.permits[permitId].(consumed := true)]
    requires id in t.incarnations && t.incarnations == s.incarnations[id := t.incarnations[id]]
    requires var i := t.incarnations[id];
             && i.workerId == s.permits[permitId].workerId && i.workerBoot == s.permits[permitId].workerBoot
             && i.coordinatorEpoch == s.epoch && i.authorityGeneration == s.authority
    ensures Traced(t, spent[id := permitId])
  {
    assert forall k :: k in spent ==> spent[k] != permitId;
  }

  lemma NowStep(s: State, op: Op)
    requires UpToNow(s) && !op.OpLoad?
    ensures UpToNow(Step(s, op).0)
  {
    hide Step, IssuePermit, SameUses, SameDrains, SameDefinitions, SameEvidence, KeepsFences, KeepsClosed, Continues,
      AddsNoCurrent, KeepsAttempts, SameActivations;
    if op.OpIssuePermit? {
      StepIssuePermit(s, op);
      IssueShape(s, op.worker, op.boot);
    }
  }

  lemma TraceStep(s: State, op: Op, spent: map<u64, u64>, n: nat) returns (after: map<u64, u64>)
    requires Traced(s, spent) && UpToNow(s) && FreshIncarnations(s, n + 1) && FreshPermits(s, n + 1) && !op.OpLoad?
    ensures Traced(Step(s, op).0, after)
  {
    hide Step, Register, MarkRunning, Revalidate, Traced, UpToNow, FreshIncarnations, FreshPermits, SameUses,
      SameDrains, SameDefinitions, SameEvidence, KeepsFences, KeepsClosed, KeepsAuthority, AddsNoCurrent,
      KeepsAttempts, SameActivations, PermitsKept, Down, Up;
    if op.OpRegister? {
      StepRegister(s, op);
      after := RegisterTraces(s, op.inc, op.permitId, op.now, spent, n);
    } else {
      after := spent;
      PermitStep(s, op, n);
      if op.OpMarkRunning? {
        StepMarkRunning(s, op);
        MarkRunningShape(s, op.id, op.now);
      } else if op.OpRevalidate? {
        StepRevalidate(s, op);
        RevalidateShape(s, op.id);
      }
      StillTraced(s, Step(s, op).0, spent);
    }
  }

  lemma {:induction false} TracedRun(s: State, ops: seq<Op>, spent: map<u64, u64>) returns (after: map<u64, u64>)
    requires Traced(s, spent) && UpToNow(s) && FreshIncarnations(s, |ops|) && FreshPermits(s, |ops|)
    requires forall op :: op in ops ==> !op.OpLoad?
    ensures Traced(Run(s, ops), after)
    decreases |ops|
  {
    after := spent;
    if ops != [] {
      after := TraceStep(s, ops[0], spent, |ops| - 1);
      NowStep(s, ops[0]);
      PermitStep(s, ops[0], |ops| - 1);
      GenerationStep(s, ops[0], |ops| - 1);
      hide Step, Traced, UpToNow, FreshIncarnations, FreshPermits, PermitsKept, Grows;
      after := TracedRun(Step(s, ops[0]).0, ops[1..], after);
    }
  }

  /** In every run from a new runtime, without load, each incarnation of the table can be traced to a permit of
      its own that was consumed and was issued to the same worker boot under the same epoch and authority. */
  lemma EveryIncarnationHasItsPermit(options: Options, ops: seq<Op>)
    requires |ops| + 1 < TWO64 && forall op :: op in ops ==> !op.OpLoad?
    ensures exists spent :: Traced(Run(Initial(options), ops), spent)
  {
    assert Traced(Initial(options), map[]);
    hide Run;
    var spent := TracedRun(Initial(options), ops, map[]);
  }
}
