/** Fenced worker boots over whole runs (runtime.cpp:110-256, 442-657). */
module BootFence {
  import opened Prelude
  import opened Errors
  import opened Records
  import opened RuntimeState
  import opened RuntimeRuns

  /** The incarnations of a worker boot. */
  function BootIncarnations(s: State, worker: u64, boot: u64): set<u64>
  {
    set k | k in s.incarnations && OfBoot(s.incarnations[k], worker, boot)
  }

  /** The boot is fenced, and each of its incarnations is fenced, not current and not running. */
  ghost predicate FencedOut(s: State, worker: u64, boot: u64)
  {
    && BootFenced(s, worker, boot)
    && forall k :: k in BootIncarnations(s, worker, boot) ==> Down(s.incarnations[k])
  }

  lemma FenceEstablishes(s: State, worker: u64, boot: u64)
    ensures FencedOut(FenceWorker(s, worker, boot).0, worker, boot)
  {
    hide SameServing, SameEvidence, Continues, AddsNoCurrent, KeepsAttempts, SameActivations;
  }

  /** mark_running and revalidate do not look at the fence: they break it exactly when they are
      called on an incarnation of the boot. */
  lemma UncheckedOperations(s: State, worker: u64, boot: u64, id: u64, now: u64)
    requires FencedOut(s, worker, boot)
    ensures FencedOut(MarkRunning(s, id, now).0, worker, boot) <==> id !in BootIncarnations(s, worker, boot)
    ensures FencedOut(Revalidate(s, id).0, worker, boot) <==> id !in BootIncarnations(s, worker, boot)
  {
    hide SameServing, SameEvidence, AddsNoCurrent, KeepsAttempts, SameActivations;
    var t, r := MarkRunning(s, id, now).0, Revalidate(s, id).0;
    if id in s.incarnations {
      assert t.incarnations[id].state.lifecycle.Running? && r.incarnations[id].state.lifecycle.Running?;
      assert id in BootIncarnations(t, worker, boot) <==> id in BootIncarnations(s, worker, boot);
      assert id in BootIncarnations(r, worker, boot) <==> id in BootIncarnations(s, worker, boot);
    }
  }

  /** The operation does not bring incarnations of the boot up behind the fence's back. */
  predicate Respects(op: Op, boots: set<u64>)
  {
    && !op.OpLoad?
    && (op.OpMarkRunning? ==> op.id !in boots)
    && (op.OpRevalidate? ==> op.id !in boots)
  }

  lemma RegisterRefused(s: State, inc: Incarnation, permitId: u64, now: u64)
    requires BootFenced(s, inc.workerId, inc.workerBoot)
    ensures Register(s, inc, permitId, now).1.Threw? && Register(s, inc, permitId, now).0 == s
  {
    hide SameServing, SameEvidence, KeepsFences, AddsNoCurrent, KeepsAttempts, SameActivations;
  }

  lemma PublishRefused(s: State, ev: Evidence, now: u64)
    requires ev.origin.incarnationId in s.incarnations
    requires Down(s.incarnations[ev.origin.incarnationId])
    ensures Publish(s, ev, now).1.Threw? && Publish(s, ev, now).0 == s
  {
    hide SameServing, KeepsFences, Continues, EvidenceSlots, AddsNoCurrent, KeepsAttempts, SameActivations;
  }

  lemma RegisterElsewhere(s: State, inc: Incarnation, permitId: u64, now: u64, worker: u64, boot: u64)
    requires FencedOut(s, worker, boot)
    ensures FencedOut(Register(s, inc, permitId, now).0, worker, boot)
    ensures BootIncarnations(Register(s, inc, permitId, now).0, worker, boot) <= BootIncarnations(s, worker, boot)
  {
    if OfBoot(inc, worker, boot) {
      RegisterRefused(s, inc, permitId, now);
    } else {
      RegisterShape(s, inc, permitId, now);
      hide Register, SameServing, SameUses, SameDrains, SameEvidence, RegisterCheck, AddsNoCurrent, KeepsAttempts,
        SameActivations;
    }
  }

  lemma StepKeepsFence(s: State, op: Op, worker: u64, boot: u64)
    requires FencedOut(s, worker, boot) && Respects(op, BootIncarnations(s, worker, boot))
    ensures FencedOut(Step(s, op).0, worker, boot)
    ensures BootIncarnations(Step(s, op).0, worker, boot) <= BootIncarnations(s, worker, boot)
  {
    hide Step, Register, MarkRunning, Revalidate, FenceWorker, SameUses, SameDrains, SameServing, SameEvidence,
      KeepsClosed, AddsNoCurrent, KeepsAttempts, SameActivations;
    if op.OpRegister? {
      StepRegister(s, op);
      hide KeepsFences, AddsNoCurrent, KeepsAttempts, SameActivations;
      RegisterElsewhere(s, op.inc, op.permitId, op.now, worker, boot);
    } else if op.OpMarkRunning? {
      StepMarkRunning(s, op);
      MarkRunningShape(s, op.id, op.now);
    } else if op.OpRevalidate? {
      StepRevalidate(s, op);
      RevalidateShape(s, op.id);
    } else if op.OpFenceWorker? {
      StepFence(s, op);
    }
  }

  /** No evidence is added to an incarnation that is down. */
  lemma StepAddsNoEvidence(s: State, op: Op, k: u64)
    requires k in s.incarnations && Down(s.incarnations[k]) && !op.OpLoad?
    ensures |EvidenceOf(Step(s, op).0, k)| == |EvidenceOf(s, k)|
  {
    hide Step, Publish, InvalidateComponents, SameUses, SameDrains, SameServing, KeepsClosed, KeepsFences, Continues,
      Stamped, AddsNoCurrent, KeepsAttempts, SameActivations;
    if op.OpPublish? {
      StepPublish(s, op);
      PublishShape(s, op.ev, op.now);
      if op.ev.origin.incarnationId == k {
        PublishRefused(s, op.ev, op.now);
      }
      hide PublishCheck;
    } else if op.OpInvalidateComponents? {
      StepInvalidate(s, op);
      InvalidateShape(s, op.id, op.reason);
    }
  }

  ghost predicate AllRespect(ops: seq<Op>, boots: set<u64>)
  {
    forall op :: op in ops ==> Respects(op, boots)
  }

  lemma StillRespects(ops: seq<Op>, boots: set<u64>, fewer: set<u64>)
    requires AllRespect(ops, boots) && fewer <= boots && ops != []
    ensures AllRespect(ops[1..], fewer)
  {
    forall op | op in ops[1..]
      ensures Respects(op, fewer)
    {
      assert op in ops;
      assert Respects(op, boots);
    }
  }

  /** After a fence, in every continuation that neither loads nor calls mark_running or revalidate on
      an incarnation of that boot: no incarnation of the boot is current or running, none is added,
      and none gains evidence. */
  lemma {:induction false} FencedForGood(s: State, ops: seq<Op>, worker: u64, boot: u64)
    requires FencedOut(s, worker, boot)
    requires AllRespect(ops, BootIncarnations(s, worker, boot))
    ensures FencedOut(Run(s, ops), worker, boot)
    ensures BootIncarnations(Run(s, ops), worker, boot) <= BootIncarnations(s, worker, boot)
    ensures forall k :: k in BootIncarnations(Run(s, ops), worker, boot) ==>
              |EvidenceOf(Run(s, ops), k)| == |EvidenceOf(s, k)|
    decreases |ops|
  {
    if ops != [] {
      var t := Step(s, ops[0]).0;
      StepKeepsFence(s, ops[0], worker, boot);
      forall k | k in BootIncarnations(s, worker, boot)
        ensures |EvidenceOf(t, k)| == |EvidenceOf(s, k)|
      {
        StepAddsNoEvidence(s, ops[0], k);
      }
      StillRespects(ops, BootIncarnations(s, worker, boot), BootIncarnations(t, worker, boot));
      hide Step, BootIncarnations, FencedOut, EvidenceOf, AllRespect, SameUses, SameDrains, SameEvidence, KeepsClosed,
        KeepsFences, Continues, AddsNoCurrent, KeepsAttempts, SameActivations;
      FencedForGood(t, ops[1..], worker, boot);
    }
  }

  lemma DownRefuses(s: State, k: u64, w: Wanted, q: Request, rid: u64, now: u64)
    requires k in s.incarnations && Down(s.incarnations[k]) && q.incarnationId == k
    ensures AcquireCheck(s, k, w, now).Fail?
    ensures ActivateCheck(s, q, now).Fail?
    ensures rid in s.replacements && s.replacements[rid].candidateIncarnation == k ==> CutoverCheck(s, rid).Fail?
  {
    hide OutlookOf;
  }

  /** What being fenced out means for callers: nothing of the boot is admitted, activated, cut over to
      or published for, and the boot neither gets a permit nor registers. */
  lemma FencedOutRefuses(s: State, worker: u64, boot: u64, k: u64, w: Wanted, q: Request,
      rid: u64, ev: Evidence, inc: Incarnation, permitId: u64, now: u64)
    requires FencedOut(s, worker, boot) && k in BootIncarnations(s, worker, boot)
    requires ev.origin.incarnationId == k && q.incarnationId == k && OfBoot(inc, worker, boot)
    ensures Acquire(s, k, w, now).1.Threw?
    ensures Activate(s, q, now).1.Threw?
    ensures rid in s.replacements && s.replacements[rid].candidateIncarnation == k ==> CommitCutover(s, rid).1.Threw?
    ensures Publish(s, ev, now).1.Threw?
    ensures Register(s, inc, permitId, now).1.Threw?
    ensures IssuePermit(s, worker, boot).1.Threw?
  {
    DownRefuses(s, k, w, q, rid, now);
    PublishRefused(s, ev, now);
    RegisterRefused(s, inc, permitId, now);
    hide OutlookOf, AcquireCheck, ActivateCheck, CutoverCheck, Publish, Register, FencedOut, BootIncarnations,
      SameServing, SameUses, SameDrains, SameEvidence, KeepsFences, KeepsClosed, Continues, AddsNoCurrent,
      KeepsAttempts, SameActivations;
  }
}
