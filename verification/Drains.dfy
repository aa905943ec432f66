/** Drains over whole runs: admission stays fenced, and the phase depends only on which releases
    and whether an acknowledgement happened (runtime.cpp:500-591). */
module Drains {
  import opened Prelude
  import opened Errors
  import opened Records
  import opened RuntimeState
  import opened RuntimeRuns
  import opened Accounting

  /* ---- admission fencing ---- */

  lemma ClosedToAcquire(s: State, id: u64, w: Wanted, now: u64)
    requires AdmissionClosed(s, id)
    ensures AcquireCheck(s, id, w, now).Fail?
    ensures Acquire(s, id, w, now).0 == s
  {
    assert AcquireCheck(s, id, w, now).Fail? by {
      hide OutlookOf;
    }
    AcquireRefused(s, id, w, now);
  }

  lemma OpenElsewhere(uses: map<u64, Use>, u: u64, r: Use, i: u64)
    requires r.incarnationId != i
    ensures OpenFor(uses[u := r], i) <= OpenFor(uses, i)
    ensures u !in uses ==> OpenFor(uses[u := r], i) == OpenFor(uses, i)
  {
  }

  lemma AcquireElsewhere(s: State, id: u64, w: Wanted, now: u64, i: u64)
    requires Keyed(s) && AdmissionClosed(s, i)
    ensures var t := Acquire(s, id, w, now).0;
            && SameDrains(s, t) && OpenFor(t.activeUses, i) <= OpenFor(s.activeUses, i)
            && (FreshUses(s, 1) ==> OpenFor(t.activeUses, i) == OpenFor(s.activeUses, i))
  {
    hide Acquire, AcquireCheck, SameEvidence, KeepsFences, Continues, OpenFor, AddsNoCurrent, KeepsAttempts,
      SameActivations;
    if id == i {
      ClosedToAcquire(s, id, w, now);
    } else {
      if AcquireCheck(s, id, w, now).Pass? {
        AcquireShape(s, id, w, now);
        OpenElsewhere(s.activeUses, Bump(Bump(s.ids.use)),
          AdmitUse(s.incarnations[id], w, now), i);
      } else {
        AcquireRefused(s, id, w, now);
      }
    }
  }

  lemma ReleaseOpens(s: State, use: u64, id: u64, c: Closing, i: u64)
    ensures OpenFor(Release(s, use, id, c).0.activeUses, i) == OpenFor(s.activeUses, i) - if id == i then {use} else {}
  {
    hide Release, Remaining, ReleaseDrain, KeepsClosed, SameEvidence, KeepsFences, Continues, AddsNoCurrent,
      KeepsAttempts, SameActivations;
    if ReleaseCheck(s, use, id).Pass? {
      ReleaseShape(s, use, id, c);
      OpenAfterRelease(s.activeUses, use, c, i);
    } else {
      ReleaseRefused(s, use, id, c);
    }
  }

  lemma ClosedStep(s: State, op: Op, i: u64)
    requires Keyed(s) && AdmissionClosed(s, i)
    ensures var t := Step(s, op).0;
            && Keyed(t) && AdmissionClosed(t, i)
            && OpenFor(t.activeUses, i) <= OpenFor(s.activeUses, i)
  {
    KeyedStep(s, op);
    hide Step, Keyed, OpenFor, Acquire, Release, SameEvidence, KeepsFences, Continues, Remaining, AddsNoCurrent,
      KeepsAttempts, SameActivations;
    if op.OpAcquire? {
      StepAcquire(s, op);
      AcquireElsewhere(s, op.id, op.w, op.now, i);
    } else if op.OpRelease? {
      StepRelease(s, op);
      ReleaseOpens(s, op.use, op.id, op.closing, i);
    }
  }

  /** Once admission is fenced, in every continuation, load included, every acquire is refused and
      no use of that incarnation is ever added. */
  lemma {:induction false} FenceIsForever(s: State, ops: seq<Op>, i: u64)
    requires Keyed(s) && AdmissionClosed(s, i)
    ensures Keyed(Run(s, ops)) && AdmissionClosed(Run(s, ops), i)
    ensures OpenFor(Run(s, ops).activeUses, i) <= OpenFor(s.activeUses, i)
    ensures forall w, now ::
              Acquire(Run(s, ops), i, w, now).1.Threw?
    decreases |ops|
  {
    if ops == [] {
      forall w, now
        ensures Acquire(s, i, w, now).1.Threw?
      {
        ClosedToAcquire(s, i, w, now);
      }
    } else {
      ClosedStep(s, ops[0], i);
      hide Step, OpenFor, Keyed, AdmissionClosed, Acquire;
      FenceIsForever(Step(s, ops[0]).0, ops[1..], i);
    }
  }

  /** Both ways of fencing: a drain request that succeeds, and a cutover away from i. */
  lemma FencesAdmission(s: State, i: u64, rid: u64)
    requires Keyed(s)
    ensures RequestDrain(s, i).1.Done? ==> AdmissionClosed(RequestDrain(s, i).0, i)
    ensures CommitCutover(s, rid).1.Done? && s.replacements[rid].oldIncarnation == i && i in s.incarnations ==>
              AdmissionClosed(CommitCutover(s, rid).0, i)
  {
    hide Remaining, SameEvidence, KeepsFences, Continues, SameUses, AddsNoCurrent, KeepsAttempts, SameActivations;
  }

  /* ---- the phase ---- */

  /** The phase that the open uses and the acknowledgement call for. */
  function Expected(open: set<u64>, ack: bool): DrainPhase
  {
    if open != {} then ActiveUseRemaining else if ack then Drained else BackendCleanupPending
  }

  ghost predicate Exact(s: State, i: u64)
  {
    AdmissionClosed(s, i) && s.drains[i].phase == Expected(OpenFor(s.activeUses, i), s.drains[i].ack)
  }

  /** The 32-bit recount tells correctly whether a use is open. */
  lemma RemainingTells(s: State, i: u64)
    requires Accounted(s)
    ensures Remaining(s.activeUses, i) == 0 <==> OpenFor(s.activeUses, i) == {}
  {
    Shrinks(OpenFor(s.activeUses, i), OpenUses(s.activeUses));
    hide OpenFor, OpenUses;
  }

  /** What a first or repeated request leaves: the expected phase, unless a cleanup had already been
      acknowledged with no use open; then a drained incarnation goes back to waiting for cleanup. */
  lemma RequestIsExact(s: State, i: u64)
    requires Accounted(s) && RequestDrain(s, i).1.Done?
    ensures Exact(RequestDrain(s, i).0, i) <==> !(OpenFor(s.activeUses, i) == {} && DrainOf(s, i).ack)
    ensures RequestDrain(s, i).0.drains[i].ack == DrainOf(s, i).ack
  {
    RemainingTells(s, i);
    hide Remaining, OpenFor, SameEvidence, KeepsFences, Continues, KeepsClosed, AddsNoCurrent, KeepsAttempts,
      SameActivations;
  }

  /** The uses of i that a run releases. */
  ghost function Closes(ops: seq<Op>, i: u64): set<u64>
  {
    set op | op in ops && op.OpRelease? && op.id == i :: op.use
  }

  lemma ReleaseIsExact(s: State, use: u64, id: u64, c: Closing, i: u64)
    requires Accounted(s) && FreshUses(s, 1) && Exact(s, i)
    ensures Exact(Release(s, use, id, c).0, i) && Release(s, use, id, c).0.drains[i].ack == s.drains[i].ack
  {
    hide Release, Remaining, OpenFor, OpenUses, SameEvidence, KeepsFences, Continues, KeepsClosed, AddsNoCurrent,
      KeepsAttempts, SameActivations;
    if ReleaseCheck(s, use, id).Pass? {
      ReleaseOpens(s, use, id, c, i);
      ReleaseShape(s, use, id, c);
      ReleaseCounts(s, use, id, c, 0);
      OpenHas(s.activeUses, use);
      RemainingTells(Release(s, use, id, c).0, id);
    } else {
      ReleaseRefused(s, use, id, c);
    }
  }

  lemma OpenHas(uses: map<u64, Use>, use: u64)
    requires use in uses && !uses[use].released
    ensures use in OpenUses(uses) && use in OpenFor(uses, uses[use].incarnationId)
  {
  }

  lemma AcknowledgementShape(s: State, id: u64)
    requires id in s.drains
    ensures AcknowledgeCleanup(s, id).0.drains ==
            s.drains[id := AfterAcknowledgement(s.drains[id], Remaining(s.activeUses, id))]
  {
    hide Remaining, AfterAcknowledgement, SameUses, SameEvidence, KeepsFences, Continues, KeepsClosed, AddsNoCurrent,
      KeepsAttempts, SameActivations;
  }

  lemma AcknowledgementIsExact(s: State, id: u64, i: u64)
    requires Accounted(s) && Exact(s, i)
    ensures Exact(AcknowledgeCleanup(s, id).0, i)
    ensures AcknowledgeCleanup(s, id).0.drains[i].ack == (s.drains[i].ack || id == i)
  {
    RemainingTells(s, i);
    hide AcknowledgeCleanup, Remaining, OpenFor, SameEvidence, KeepsFences, Continues, KeepsClosed, Accounted,
      AddsNoCurrent, KeepsAttempts, SameActivations;
    if id in s.drains {
      AcknowledgementShape(s, id);
    } else {
      AcknowledgementRefused(s, id);
    }
  }

  lemma AcknowledgementRefused(s: State, id: u64)
    requires id !in s.drains
    ensures AcknowledgeCleanup(s, id) == (s, Threw(InvalidState))
  {
    hide Remaining, AfterAcknowledgement, SameUses, SameEvidence, KeepsFences, Continues, KeepsClosed, AddsNoCurrent,
      KeepsAttempts, SameActivations;
  }

  lemma CutoverShape(s: State, rid: u64)
    ensures CommitCutover(s, rid).0.drains ==
            if CutoverCheck(s, rid).Pass? then FenceOld(s, s.replacements[rid].oldIncarnation) else s.drains
  {
    hide FenceOld, DisplaceOld, PromoteOne, SameUses, SameEvidence, KeepsFences, Continues, KeepsClosed,
      AddsNoCurrent, KeepsAttempts, SameActivations;
  }

  lemma CutoverKeepsPhase(s: State, rid: u64, i: u64)
    requires AdmissionClosed(s, i)
    ensures var t := CommitCutover(s, rid).0;
            AdmissionClosed(t, i) && t.drains[i].phase == s.drains[i].phase && t.drains[i].ack == s.drains[i].ack
  {
    CutoverShape(s, rid);
    hide CommitCutover, CutoverCheck, SameUses, SameEvidence, KeepsFences, Continues, AddsNoCurrent, KeepsAttempts,
      SameActivations;
  }

  lemma RequestElsewhere(s: State, id: u64, i: u64)
    requires i in s.drains && id != i
    ensures i in RequestDrain(s, id).0.drains && RequestDrain(s, id).0.drains[i] == s.drains[i]
  {
    hide Remaining, RequestDrainCheck, SameEvidence, KeepsFences, Continues, KeepsClosed, SameUses, DrainOne,
      AddsNoCurrent, KeepsAttempts, SameActivations;
  }

  /** One operation that is neither load nor another drain request for i. */
  lemma ExactStep(s: State, op: Op, i: u64, n: nat)
    requires Keyed(s) && Accounted(s) && FreshUses(s, n + 1) && Exact(s, i)
    requires !op.OpLoad? && op != OpRequestDrain(i)
    ensures var t := Step(s, op).0;
            && Exact(t, i)
            && OpenFor(t.activeUses, i) == OpenFor(s.activeUses, i) - Closes([op], i)
            && t.drains[i].ack == (s.drains[i].ack || op == OpAcknowledgeCleanup(i))
  {
    ClosesOne(op, i);
    hide Step, OpenFor, OpenUses, Acquire, Release, RequestDrain, AcknowledgeCleanup, CommitCutover, Closes, Keyed,
      Accounted, SameEvidence, KeepsFences, Continues, KeepsClosed, AddsNoCurrent, KeepsAttempts, SameActivations;
    match op {
      case OpAcquire(id, w, now) =>
        StepAcquire(s, op);
        AcquireElsewhere(s, id, w, now, i);
      case OpRelease(use, id, c) =>
        StepRelease(s, op);
        ReleaseOpens(s, use, id, c, i);
        ReleaseIsExact(s, use, id, c, i);
      case OpRequestDrain(id) =>
        StepRequestDrain(s, op);
        RequestElsewhere(s, id, i);
      case OpAcknowledgeCleanup(id) =>
        StepAcknowledge(s, op);
        AcknowledgementIsExact(s, id, i);
      case OpCommitCutover(rid) =>
        StepCutover(s, op);
        CutoverKeepsPhase(s, rid, i);
      case _ =>
    }
  }

  lemma ClosesOne(op: Op, i: u64)
    ensures Closes([op], i) == if op.OpRelease? && op.id == i then {op.use} else {}
  {
  }

  /** Once admission is fenced, the open uses change by releases alone. */
  lemma ClosedOpens(s: State, op: Op, i: u64)
    requires Keyed(s) && AdmissionClosed(s, i) && FreshUses(s, 1) && !op.OpLoad?
    ensures OpenFor(Step(s, op).0.activeUses, i) == OpenFor(s.activeUses, i) - Closes([op], i)
  {
    ClosesOne(op, i);
    hide Step, OpenFor, Acquire, Release, Closes, Keyed, SameEvidence, KeepsFences, Continues, KeepsClosed,
      AddsNoCurrent, KeepsAttempts, SameActivations, AdmissionClosed;
    if op.OpAcquire? {
      StepAcquire(s, op);
      AcquireElsewhere(s, op.id, op.w, op.now, i);
    } else if op.OpRelease? {
      StepRelease(s, op);
      ReleaseOpens(s, op.use, op.id, op.closing, i);
    }
  }

  /** A repeated drain request does no harm while a use is open. */
  lemma RequestStaysExact(s: State, i: u64)
    requires Accounted(s) && Exact(s, i) && OpenFor(s.activeUses, i) != {}
    ensures Exact(RequestDrain(s, i).0, i)
  {
    if RequestDrain(s, i).1.Done? {
      RequestIsExact(s, i);
    } else {
      RequestRefused(s, i);
    }
    hide RequestDrain, OpenFor, Exact, Accounted;
  }

  lemma RequestRefused(s: State, i: u64)
    requires RequestDrain(s, i).1.Threw?
    ensures RequestDrain(s, i).0 == s
  {
    hide Remaining, SameEvidence, KeepsFences, Continues, KeepsClosed, AddsNoCurrent, KeepsAttempts, SameActivations;
  }

  /** While a use stays open the phase stays exact under every operation but load. */
  lemma ExactWhileOpen(s: State, op: Op, i: u64, n: nat)
    requires Keyed(s) && Accounted(s) && FreshUses(s, n + 1) && Exact(s, i) && !op.OpLoad?
    requires OpenFor(s.activeUses, i) != {}
    ensures Exact(Step(s, op).0, i)
  {
    hide Step, OpenFor, RequestDrain, Keyed, Accounted, Exact, SameUses, SameDrains, SameDefinitions, SameEvidence,
      KeepsFences, Continues, KeepsClosed, KeepsAuthority, AddsNoCurrent, KeepsAttempts, SameActivations;
    if op == OpRequestDrain(i) {
      StepRequestDrain(s, op);
      RequestStaysExact(s, i);
    } else {
      ExactStep(s, op, i, n);
    }
  }

  /** No load and no further drain request for i. */
  ghost predicate Quiet(ops: seq<Op>, i: u64)
  {
    forall op :: op in ops ==> !op.OpLoad? && op != OpRequestDrain(i)
  }

  lemma SplitOps(ops: seq<Op>, i: u64)
    requires ops != []
    ensures Closes(ops, i) == Closes([ops[0]], i) + Closes(ops[1..], i)
    ensures OpAcknowledgeCleanup(i) in ops <==> ops[0] == OpAcknowledgeCleanup(i) || OpAcknowledgeCleanup(i) in ops[1..]
    ensures Quiet(ops, i) ==> !ops[0].OpLoad? && ops[0] != OpRequestDrain(i) && Quiet(ops[1..], i)
  {
    assert ops == [ops[0]] + ops[1..];
    forall u
      ensures u in Closes(ops, i) <==> u in Closes([ops[0]], i) + Closes(ops[1..], i)
    {
      if u in Closes(ops, i) {
        var op :| op in ops && op.OpRelease? && op.id == i && op.use == u;
        assert op in [ops[0]] || op in ops[1..];
      }
    }
  }

  /** After a drain request the outcome of a run does not depend on the order of its calls, nor on
      calls about other incarnations: the open uses are those that the run does not release, and the
      phase follows from them and from whether the cleanup was acknowledged. */
  lemma {:induction false} DrainOutcome(s: State, ops: seq<Op>, i: u64)
    requires Keyed(s) && Accounted(s) && FreshUses(s, |ops|) && Exact(s, i) && Quiet(ops, i)
    ensures var t := Run(s, ops);
            var open := OpenFor(s.activeUses, i) - Closes(ops, i);
            && i in t.drains && OpenFor(t.activeUses, i) == open
            && t.drains[i].phase == Expected(open, s.drains[i].ack || OpAcknowledgeCleanup(i) in ops)
    decreases |ops|
  {
    if ops == [] {
      assert Closes(ops, i) == {};
    } else {
      hide Step, OpenFor, Keyed, Accounted, FreshUses, Closes, Expected, Quiet, SameUses, SameDrains, SameEvidence,
        KeepsFences, KeepsClosed, Continues, OpenUses, AddsNoCurrent, KeepsAttempts, SameActivations;
      SplitOps(ops, i);
      var t := Step(s, ops[0]).0;
      ExactStep(s, ops[0], i, |ops| - 1);
      CountStep(s, ops[0], |ops| - 1);
      KeyedStep(s, ops[0]);
      assert OpenFor(s.activeUses, i) - Closes(ops, i) == OpenFor(t.activeUses, i) - Closes(ops[1..], i);
      assert (s.drains[i].ack || OpAcknowledgeCleanup(i) in ops)
          == (t.drains[i].ack || OpAcknowledgeCleanup(i) in ops[1..]);
      hide Exact, AdmissionClosed;
      DrainOutcome(t, ops[1..], i);
    }
  }

  /* ---- what DRAINED means ---- */

  /** A drained incarnation is fenced and cleaned up, and none of its uses is open. */
  ghost predicate Earned(s: State, i: u64)
  {
    i in s.drains && s.drains[i].phase.Drained? ==>
      s.drains[i].fenced && s.drains[i].ack && OpenFor(s.activeUses, i) == {}
  }

  lemma AcquireEarned(s: State, id: u64, w: Wanted, now: u64, i: u64)
    requires Keyed(s) && FreshUses(s, 1) && Earned(s, i)
    ensures Earned(Acquire(s, id, w, now).0, i)
  {
    if AdmissionClosed(s, i) {
      AcquireElsewhere(s, id, w, now, i);
    }
    assert SameDrains(s, Acquire(s, id, w, now).0);
    hide Acquire, OpenFor;
  }

  lemma ReleaseEarned(s: State, use: u64, id: u64, c: Closing, i: u64)
    requires Accounted(s) && FreshUses(s, 1) && Earned(s, i)
    ensures Earned(Release(s, use, id, c).0, i)
  {
    ReleaseOpens(s, use, id, c, i);
    ReleaseCounts(s, use, id, c, 0);
    hide Release, Remaining, OpenFor, OpenUses, FreshUses;
    if ReleaseCheck(s, use, id).Pass? {
      ReleaseShape(s, use, id, c);
      OpenHas(s.activeUses, use);
      RemainingTells(Release(s, use, id, c).0, id);
    } else {
      ReleaseRefused(s, use, id, c);
    }
  }

  lemma RequestEarned(s: State, id: u64, i: u64)
    requires Earned(s, i)
    ensures Earned(RequestDrain(s, id).0, i)
  {
    hide Remaining, OpenFor, SameEvidence, SameDefinitions, KeepsAuthority, KeepsFences, Continues, KeepsClosed,
      AddsNoCurrent, KeepsAttempts, SameActivations;
  }

  lemma AcknowledgementEarned(s: State, id: u64, i: u64)
    requires Accounted(s) && Earned(s, i)
    ensures Earned(AcknowledgeCleanup(s, id).0, i)
  {
    RemainingTells(s, i);
    assert SameUses(s, AcknowledgeCleanup(s, id).0);
    hide AcknowledgeCleanup, Remaining, OpenFor, Accounted;
    if id in s.drains {
      AcknowledgementShape(s, id);
    } else {
      AcknowledgementRefused(s, id);
    }
  }

  lemma CutoverEarned(s: State, rid: u64, i: u64)
    requires Earned(s, i)
    ensures Earned(CommitCutover(s, rid).0, i)
  {
    CutoverShape(s, rid);
    assert SameUses(s, CommitCutover(s, rid).0);
    hide CommitCutover, CutoverCheck, OpenFor;
  }

  lemma StillEarned(s: State, t: State, i: u64)
    requires Earned(s, i) && SameUses(s, t) && SameDrains(s, t)
    ensures Earned(t, i)
  {
  }

  lemma FewerFresh(s: State, n: nat)
    requires FreshUses(s, n + 1)
    ensures FreshUses(s, 1)
  {
  }

  lemma EarnedStep(s: State, op: Op, i: u64, n: nat)
    requires Keyed(s) && Accounted(s) && FreshUses(s, n + 1) && Earned(s, i) && !op.OpLoad?
    ensures Earned(Step(s, op).0, i)
  {
    FewerFresh(s, n);
    hide Step, Earned, OpenFor, OpenUses, Acquire, Release, RequestDrain, AcknowledgeCleanup, CommitCutover, Keyed,
      Accounted, FreshUses, SameUses, SameDrains, SameEvidence, SameDefinitions, KeepsAuthority, KeepsFences, Continues,
      KeepsClosed, AddsNoCurrent, KeepsAttempts, SameActivations;
    match op {
      case OpAcquire(id, w, now) =>
        StepAcquire(s, op);
        AcquireEarned(s, id, w, now, i);
      case OpRelease(use, id, c) =>
        StepRelease(s, op);
        ReleaseEarned(s, use, id, c, i);
      case OpRequestDrain(id) =>
        StepRequestDrain(s, op);
        RequestEarned(s, id, i);
      case OpAcknowledgeCleanup(id) =>
        StepAcknowledge(s, op);
        AcknowledgementEarned(s, id, i);
      case OpCommitCutover(rid) =>
        StepCutover(s, op);
        CutoverEarned(s, rid, i);
      case _ => StillEarned(s, Step(s, op).0, i);
    }
  }

  /** In every run without load, with repeated requests, cutovers and whatever else, an incarnation is
      DRAINED only while it is fenced, its cleanup is acknowledged, and none of its uses is open. */
  lemma {:induction false} DrainedIsEarned(s: State, ops: seq<Op>, i: u64)
    requires Keyed(s) && Accounted(s) && FreshUses(s, |ops|) && Earned(s, i) && forall op :: op in ops ==> !op.OpLoad?
    ensures Earned(Run(s, ops), i)
    decreases |ops|
  {
    if ops != [] {
      EarnedStep(s, ops[0], i, |ops| - 1);
      CountStep(s, ops[0], |ops| - 1);
      KeyedStep(s, ops[0]);
      hide Step, Earned, Keyed, Accounted, FreshUses;
      DrainedIsEarned(Step(s, ops[0]).0, ops[1..], i);
    }
  }
}
