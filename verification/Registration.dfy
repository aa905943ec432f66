/** Registration over whole runs (runtime.cpp:110-200). */
module Registration {
  import opened Prelude
  import opened Errors
  import opened Records
  import opened RuntimeState
  import opened RuntimeRuns

  /* ---- one starting or running incarnation per worker boot ---- */

  predicate SameBoot(i: Incarnation, j: Incarnation)
  {
    OfBoot(i, j.workerId, j.workerBoot)
  }

  ghost predicate OneUp(s: State)
  {
    forall j, k :: j in s.incarnations && k in s.incarnations && j != k ==>
      !(SameBoot(s.incarnations[j], s.incarnations[k]) && Up(s.incarnations[j]) && Up(s.incarnations[k]))
  }

  /** The two operations that start an incarnation without asking whether its boot has another. */
  predicate Starts(op: Op)
  {
    op.OpMarkRunning? || op.OpRevalidate?
  }

  lemma RegisterKeepsOneUp(s: State, inc: Incarnation, permitId: u64, now: u64)
    requires OneUp(s)
    ensures OneUp(Register(s, inc, permitId, now).0)
  {
    RegisterShape(s, inc, permitId, now);
    if RegisterCheck(s, inc, permitId).Pass? {
      assert !BootTaken(s, inc.workerId, inc.workerBoot);
    }
    hide Register, RegisterCheck, KeepsAuthority, SameDefinitions, SameServing, SameEvidence, KeepsFences,
      EngineServed, AddsNoCurrent, KeepsAttempts, SameActivations;
  }

  lemma OneUpStep(s: State, op: Op)
    requires OneUp(s) && !Starts(op) && !op.OpLoad?
    ensures OneUp(Step(s, op).0)
  {
    hide Step, Down, KeepsAuthority, SameUses, SameDrains, SameDefinitions, SameEvidence, KeepsFences, KeepsClosed,
      AddsNoCurrent, KeepsAttempts, SameActivations;
    if op.OpRegister? {
      hide Register, OneUp;
      StepRegister(s, op);
      RegisterKeepsOneUp(s, op.inc, op.permitId, op.now);
    }
  }

  /** In every run of the operations that sessions reach, a worker boot has at most one incarnation that
      is starting or running. */
  lemma {:induction false} BootsAreExclusive(s: State, ops: seq<Op>)
    requires OneUp(s) && forall op :: op in ops ==> !Starts(op) && !op.OpLoad?
    ensures OneUp(Run(s, ops))
    decreases |ops|
  {
    if ops != [] {
      OneUpStep(s, ops[0]);
      hide Step, OneUp;
      BootsAreExclusive(Step(s, ops[0]).0, ops[1..]);
    }
  }

  /** mark_running and revalidate keep it exactly when no other incarnation of the boot is up. */
  lemma StartingIsUnchecked(s: State, id: u64, now: u64)
    requires OneUp(s) && id in s.incarnations
    ensures var alone := forall k :: k in s.incarnations && k != id && Up(s.incarnations[k]) ==>
                           !SameBoot(s.incarnations[k], s.incarnations[id]);
            && (OneUp(MarkRunning(s, id, now).0) <==> alone)
            && (OneUp(Revalidate(s, id).0) <==> alone)
  {
    MarkRunningShape(s, id, now);
    RevalidateShape(s, id);
    PutUp(s, MarkRunning(s, id, now).0, id);
    PutUp(s, Revalidate(s, id).0, id);
    hide MarkRunning, Revalidate, OneUp, KeepsAuthority, SameDefinitions, SameServing, SameEvidence, KeepsFences,
      AddsNoCurrent, KeepsAttempts, SameActivations;
  }

  lemma PutUp(s: State, t: State, id: u64)
    requires OneUp(s) && id in s.incarnations && id in t.incarnations && Up(t.incarnations[id])
    requires t.incarnations == s.incarnations[id := t.incarnations[id]]
    requires Evolves(s.incarnations[id], t.incarnations[id])
    ensures OneUp(t) <==> forall k :: k in s.incarnations && k != id && Up(s.incarnations[k]) ==>
              !SameBoot(s.incarnations[k], s.incarnations[id])
  {
    assert forall k :: k in s.incarnations && k != id ==> t.incarnations[k] == s.incarnations[k];
  }

  /* ---- permits ---- */

  /** Every permit id handed out is at most the counter plus one, and n more fit below 2^64. */
  predicate FreshPermits(s: State, n: nat)
  {
    (forall p :: p in s.permits ==> p <= s.ids.permit + 1) && s.ids.permit + 1 + n < TWO64
  }

  ghost predicate PermitsKept(s: State, t: State)
  {
    forall p :: p in s.permits ==>
      p in t.permits && t.permits[p] == s.permits[p].(consumed := s.permits[p].consumed || t.permits[p].consumed)
  }

  lemma IssueShape(s: State, worker: u64, boot: u64)
    ensures var t := IssuePermit(s, worker, boot).0; var id := Bump(Bump(s.ids.permit));
            if IssuePermitCheck(s, worker, boot).Pass?
            then t.permits == s.permits[id := Permit(s.epoch, worker, boot, Bump(s.registrationCounter), s.authority,
                                                     false)]
                 && t.ids.permit == Bump(s.ids.permit) && t.epoch == s.epoch && t.authority == s.authority
            else t == s
  {
    hide IssuePermitCheck, SameDefinitions, SameServing, SameEvidence, KeepsFences, Continues, AddsNoCurrent,
      KeepsAttempts, SameActivations;
  }

  lemma PermitStep(s: State, op: Op, n: nat)
    requires FreshPermits(s, n + 1) && !op.OpLoad?
    ensures PermitsKept(s, Step(s, op).0) && s.epoch <= Step(s, op).0.epoch && FreshPermits(Step(s, op).0, n)
  {
    hide Step, IssuePermit, SameUses, SameDrains, SameDefinitions, SameEvidence, KeepsFences, KeepsClosed, Continues,
      AddsNoCurrent, KeepsAttempts, SameActivations;
    if op.OpIssuePermit? {
      StepIssuePermit(s, op);
      IssueKeeps(s, op.worker, op.boot, n);
    }
  }

  lemma IssueKeeps(s: State, worker: u64, boot: u64, n: nat)
    requires FreshPermits(s, n + 1)
    ensures var t := IssuePermit(s, worker, boot).0;
            PermitsKept(s, t) && s.epoch <= t.epoch && FreshPermits(t, n)
  {
    IssueShape(s, worker, boot);
    hide IssuePermit, IssuePermitCheck, SameServing, SameDefinitions, SameEvidence, KeepsFences, Continues,
      AddsNoCurrent, KeepsAttempts, SameActivations;
  }

  /** In every run without load permits keep what they were issued for, and stay consumed. */
  lemma {:induction false} PermitsLast(s: State, ops: seq<Op>)
    requires FreshPermits(s, |ops|) && forall op :: op in ops ==> !op.OpLoad?
    ensures PermitsKept(s, Run(s, ops)) && s.epoch <= Run(s, ops).epoch
    decreases |ops|
  {
    if ops != [] {
      var t := Step(s, ops[0]).0;
      PermitStep(s, ops[0], |ops| - 1);
      hide Step, FreshPermits;
      PermitsLast(t, ops[1..]);
      PermitsCompose(s, t, Run(t, ops[1..]));
      hide PermitsKept;
    }
  }

  lemma PermitsCompose(s: State, t: State, u: State)
    requires PermitsKept(s, t) && PermitsKept(t, u)
    ensures PermitsKept(s, u)
  {
  }

  /** A permit registers at most once, and none survives its epoch: in every continuation without load
      a consumed permit, or one issued under an earlier epoch, registers nothing. */
  lemma PermitsAreSpent(s: State, ops: seq<Op>, permitId: u64, inc: Incarnation, now: u64)
    requires FreshPermits(s, |ops|) && forall op :: op in ops ==> !op.OpLoad?
    requires permitId in s.permits && (s.permits[permitId].consumed || s.permits[permitId].epoch < s.epoch)
    ensures Register(Run(s, ops), inc, permitId, now).1.Threw?
  {
    PermitsLast(s, ops);
    hide Run, Register, FreshPermits;
    SpentRefused(Run(s, ops), permitId, inc, now);
  }

  lemma SpentRefused(s: State, permitId: u64, inc: Incarnation, now: u64)
    requires permitId in s.permits && (s.permits[permitId].consumed || s.permits[permitId].epoch != s.epoch)
    ensures Register(s, inc, permitId, now).1.Threw?
  {
    hide KeepsAuthority, SameDefinitions, SameServing, SameEvidence, KeepsFences, BootTaken, AddsNoCurrent,
      KeepsAttempts, SameActivations;
  }

  lemma RegistrationSpends(s: State, permitId: u64, inc: Incarnation, now: u64)
    requires Register(s, inc, permitId, now).1.Done?
    ensures var t := Register(s, inc, permitId, now).0;
            && permitId in t.permits && t.permits[permitId].consumed
            && t.permits.Keys == s.permits.Keys && t.ids.permit == s.ids.permit
  {
    assert KeepsAuthority(s, Register(s, inc, permitId, now).0);
    hide RegisterCheck, SameDefinitions, SameServing, SameEvidence, KeepsFences, AdmitOne, AddsNoCurrent, KeepsAttempts,
      SameActivations;
  }

  /** A permit registers at most once: after a registration with it succeeded, none does in any
      continuation without load. */
  lemma PermitRegistersOnce(s: State, permitId: u64, first: Incarnation, earlier: u64, ops: seq<Op>, inc: Incarnation,
      now: u64)
    requires FreshPermits(s, |ops|) && forall op :: op in ops ==> !op.OpLoad?
    requires Register(s, first, permitId, earlier).1.Done?
    ensures Register(Run(Register(s, first, permitId, earlier).0, ops), inc, permitId, now).1.Threw?
  {
    RegistrationSpends(s, permitId, first, earlier);
    hide Register, Run;
    PermitsAreSpent(Register(s, first, permitId, earlier).0, ops, permitId, inc, now);
  }
}
