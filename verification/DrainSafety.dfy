/** Backend cleanup never precedes the closure of the router's own uses (session.cpp:253-434): when a
    DRAIN frame is sent no use that the router acquired is open, and no EXECUTE frame ever follows it.
    Uses that other callers acquired are the subject of the module ForeignUses. */
module DrainSafety {
  import opened Prelude
  import opened Errors
  import opened Records
  import opened RuntimeState
  import opened RuntimeRuns
  import opened Accounting
  import opened Drains
  import opened Router
  import opened Lockstep

  /* ---- serving use records ---- */

  /** No record disappears, changes its incarnation or is reopened. */
  ghost predicate UsesKept(a: map<u64, Use>, b: map<u64, Use>)
  {
    forall u :: u in a ==> u in b && b[u].incarnationId == a[u].incarnationId && (a[u].released ==> b[u].released)
  }

  lemma AdmittedMeansOpen(s: State, id: u64, w: Wanted, now: u64)
    requires AcquireCheck(s, id, w, now).Pass?
    ensures !AdmissionClosed(s, id)
  {
    hide OutlookOf;
  }

  lemma AcquireKeepsUses(s: State, id: u64, w: Wanted, now: u64, n: nat)
    requires Keyed(s) && FreshUses(s, n + 1)
    ensures var e := Acquire(s, id, w, now); var t := e.0;
            && UsesKept(s.activeUses, t.activeUses) && FreshUses(t, n)
            && (e.1.Done? ==>
                  && !AdmissionClosed(s, id) && e.1.id !in s.activeUses && e.1.id in t.activeUses
                  && t.activeUses[e.1.id].incarnationId == id)
  {
    AcquireTells(s, id, w, now);
    hide Acquire, AcquireCheck, AdmissionClosed, SameDrains, SameEvidence, SameDefinitions, KeepsFences, Continues,
      AddsNoCurrent, KeepsAttempts, SameActivations;
    if AcquireCheck(s, id, w, now).Pass? {
      AdmittedMeansOpen(s, id, w, now);
      AcquireShape(s, id, w, now);
    } else {
      AcquireRefused(s, id, w, now);
    }
  }

  lemma AcquireTells(s: State, id: u64, w: Wanted, now: u64)
    ensures Acquire(s, id, w, now).1 ==
            match AcquireCheck(s, id, w, now)
            case Pass => Done(Bump(Bump(s.ids.use)))
            case Fail(code) => Threw(code)
  {
    hide AcquireCheck, SameDrains, SameEvidence, SameDefinitions, KeepsFences, Continues, TouchOne, AddsNoCurrent,
      KeepsAttempts, SameActivations;
  }

  lemma ReleaseKeepsUses(s: State, use: u64, id: u64, c: Closing, n: nat)
    requires FreshUses(s, n)
    ensures var t := Release(s, use, id, c).0;
            && UsesKept(s.activeUses, t.activeUses) && FreshUses(t, n)
            && (use in s.activeUses && s.activeUses[use].incarnationId == id ==> t.activeUses[use].released)
  {
    hide Release, ReleaseDrain, SameEvidence, SameDefinitions, KeepsFences, KeepsClosed, Continues, AddsNoCurrent,
      KeepsAttempts, SameActivations;
    if ReleaseCheck(s, use, id).Pass? {
      ReleaseShape(s, use, id, c);
    } else {
      ReleaseRefused(s, use, id, c);
    }
  }

  lemma StepKeepsUses(s: State, op: Op, n: nat)
    requires Keyed(s) && FreshUses(s, n + 1) && !op.OpLoad?
    ensures UsesKept(s.activeUses, Step(s, op).0.activeUses) && FreshUses(Step(s, op).0, n)
  {
    hide Step, Acquire, Release, Keyed, SameDrains, SameEvidence, SameDefinitions, KeepsFences, KeepsClosed,
      Continues, AddsNoCurrent, KeepsAttempts, SameActivations;
    if op.OpAcquire? {
      StepAcquire(s, op);
      AcquireKeepsUses(s, op.id, op.w, op.now, n);
    } else if op.OpRelease? {
      StepRelease(s, op);
      ReleaseKeepsUses(s, op.use, op.id, op.closing, n);
    }
  }

  /* ---- the invariant ---- */

  predicate HasUse(pc: Pc)
  {
    pc.SendExecute? || pc.AwaitExecute? || pc.Releasing? || pc.ReleasingFailed?
  }

  predicate DrainAt(pc: Pc)
  {
    pc.SendDrain? || pc.AwaitDrain? || pc.Acknowledging? || ((pc.CheckEpoch? || pc.CheckAuthority?) && pc.cmd.drain)
  }

  /** No drain command is anywhere between its request and the worker. */
  ghost predicate NoDrainSeen(s: Sys)
  {
    && s.drainers == 0 && (s.q.holder.Some? ==> !s.q.holder.value.drain)
    && (forall c :: c in s.q.items ==> !c.drain)
    && !DrainAt(s.pc) && NoDrainSent(s.net.sent)
  }

  predicate NoDrainSent(sent: seq<Frame>)
  {
    forall f :: f in sent ==> !f.drain
  }

  /** After a DRAIN nothing but DRAINs. */
  predicate DrainLast(sent: seq<Frame>)
  {
    forall i, j :: 0 <= i < j < |sent| && sent[i].drain ==> sent[j].drain
  }

  /** The uses of the dispatcher are closed, but for the one it is working on. */
  ghost predicate Closed(s: Sys, inc: u64)
  {
    forall u :: u in s.mine ==>
      && u in s.rt.activeUses && s.rt.activeUses[u].incarnationId == inc
      && (s.rt.activeUses[u].released || (HasUse(s.pc) && s.pc.use == u))
  }

  ghost predicate Safe(s: Sys, inc: u64, n: nat)
  {
    && Keyed(s.rt) && FreshUses(s.rt, n)
    && (AdmissionClosed(s.rt, inc) || NoDrainSeen(s))
    && DrainLast(s.net.sent) && (HasUse(s.pc) ==> NoDrainSent(s.net.sent))
    && Closed(s, inc)
  }

  lemma FreshIsSafe(s: Sys, inc: u64, n: nat)
    requires Fresh(s) && Keyed(s.rt) && FreshUses(s.rt, n)
    ensures Safe(s, inc, n)
  {
  }

  /** What the invariant says once a DRAIN frame was sent, and at the moment it is sent. */
  lemma DrainedMeansClosed(s: Sys, inc: u64, n: nat)
    requires Safe(s, inc, n) && (s.pc.SendDrain? || !NoDrainSent(s.net.sent))
    ensures AdmissionClosed(s.rt, inc)
    ensures forall u :: u in s.mine ==> u in s.rt.activeUses && s.rt.activeUses[u].released
    ensures !s.pc.SendExecute?
  {
    hide Keyed, FreshUses, AdmissionClosed;
  }

  /* ---- the actions ---- */

  /** A call that changes the runtime alone. */
  lemma CalledIsSafe(s: Sys, r: State, inc: u64, n: nat)
    requires Safe(s, inc, n + 1) && Keyed(r) && FreshUses(r, n) && UsesKept(s.rt.activeUses, r.activeUses)
    requires AdmissionClosed(s.rt, inc) ==> AdmissionClosed(r, inc)
    ensures Safe(s.(rt := r), inc, n)
  {
    hide Keyed, FreshUses, AdmissionClosed, DrainLast, NoDrainSent;
  }

  lemma RuntimeCallIsSafe(s: Sys, inc: u64, op: Op, n: nat)
    requires Safe(s, inc, n + 1)
    ensures Safe(Next(s, inc, RuntimeCall(op)), inc, n)
  {
    SafeMeans(s, inc, n + 1);
    hide Step, Keyed, Safe, SameUses, SameDrains, SameEvidence, SameDefinitions, KeepsAuthority, KeepsFences,
      Continues, AddsNoCurrent, KeepsAttempts, SameActivations;
    if op.OpLoad? {
      OneLess(s, inc, n);
    } else {
      KeyedStep(s.rt, op);
      StepKeepsUses(s.rt, op, n);
      assert KeepsClosed(s.rt, Step(s.rt, op).0);
      CalledIsSafe(s, Step(s.rt, op).0, inc, n);
    }
  }

  lemma OneLess(s: Sys, inc: u64, n: nat)
    requires Safe(s, inc, n + 1)
    ensures Safe(s, inc, n)
  {
  }

  lemma SafeMeans(s: Sys, inc: u64, n: nat)
    requires Safe(s, inc, n)
    ensures Keyed(s.rt) && FreshUses(s.rt, n)
  {
  }

  lemma RequestIsSafe(s: Sys, inc: u64, n: nat)
    requires Safe(s, inc, n + 1)
    ensures Safe(Next(s, inc, RequestDrainFirst), inc, n)
  {
    var op := OpRequestDrain(inc);
    KeyedStep(s.rt, op);
    StepRequestDrain(s.rt, op);
    StepKeepsUses(s.rt, op, n);
    assert KeepsClosed(s.rt, Step(s.rt, op).0);
    FencesAdmission(s.rt, inc, 0);
    hide Step, RequestDrain, CommitCutover, Keyed, AdmissionClosed, DrainLast, NoDrainSent, SameUses, SameEvidence,
      SameDefinitions, KeepsFences, Continues, AddsNoCurrent, KeepsAttempts, SameActivations;
  }

  lemma ControllerIsSafe(s: Sys, inc: u64, a: Act, n: nat)
    requires Safe(s, inc, n + 1) && (a.EnqueueCheck? || a.EnqueuePush?)
    ensures Safe(Next(s, inc, a), inc, n)
  {
    hide Keyed, AdmissionClosed, DrainLast, NoDrainSent;
  }

  /** The uses that were closed stay closed, whatever the dispatcher goes on to do. */
  lemma ClosedKept(s: Sys, t: Sys, inc: u64)
    requires Closed(s, inc) && UsesKept(s.rt.activeUses, t.rt.activeUses)
    requires forall u :: u in t.mine && u !in s.mine ==>
               u in t.rt.activeUses && t.rt.activeUses[u].incarnationId == inc && HasUse(t.pc) && t.pc.use == u
    requires !HasUse(s.pc) || (HasUse(t.pc) && t.pc.use == s.pc.use) || s.pc.use !in s.mine
             || t.rt.activeUses[s.pc.use].released
    ensures Closed(t, inc)
  {
  }

  lemma AcquireFacts(s: Sys, inc: u64, now: u64, n: nat)
    requires Keyed(s.rt) && FreshUses(s.rt, n + 1) && s.pc.Acquiring?
    ensures var t := AcquireStep(s, inc, s.pc.cmd, now);
            && Keyed(t.rt) && FreshUses(t.rt, n) && UsesKept(s.rt.activeUses, t.rt.activeUses)
            && (AdmissionClosed(s.rt, inc) ==> AdmissionClosed(t.rt, inc) && t.pc.Settling?)
            && t.q == s.q && t.net == s.net && t.drainers == s.drainers
            && (if t.pc.SendExecute?
                then t.mine == s.mine + {t.pc.use} && t.pc.use in t.rt.activeUses
                     && t.rt.activeUses[t.pc.use].incarnationId == inc
                else t.pc.Settling? && t.mine == s.mine)
  {
    var c := s.pc.cmd;
    AcquireKeepsUses(s.rt, inc, c.wanted, now, n);
    var op := OpAcquire(inc, c.wanted, now);
    KeyedStep(s.rt, op);
    StepAcquire(s.rt, op);
    hide Step, Acquire, Keyed, UsesKept, FreshUses, SameEvidence, SameDefinitions, KeepsFences, Continues,
      AddsNoCurrent, KeepsAttempts, SameActivations;
  }

  lemma AcquireIsSafe(s: Sys, inc: u64, ok: bool, now: u64, n: nat)
    requires Safe(s, inc, n + 1) && s.pc.Acquiring?
    ensures Safe(DispatchStep(s, inc, ok, now), inc, n)
  {
    AcquireFacts(s, inc, now, n);
    assert DispatchStep(s, inc, ok, now) == AcquireStep(s, inc, s.pc.cmd, now);
    hide DispatchStep, AcquireStep, Keyed, FreshUses, UsesKept, DrainLast, NoDrainSent, AdmissionClosed;
    ClosedKept(s, AcquireStep(s, inc, s.pc.cmd, now), inc);
    hide Closed;
  }

  lemma ReleaseFacts(s: State, inc: u64, use: u64, c: Closing, n: nat)
    requires Keyed(s) && FreshUses(s, n + 1)
    ensures var t := Release(s, use, inc, c).0;
            && Keyed(t) && FreshUses(t, n) && UsesKept(s.activeUses, t.activeUses)
            && (AdmissionClosed(s, inc) ==> AdmissionClosed(t, inc))
            && (use in s.activeUses && s.activeUses[use].incarnationId == inc ==> t.activeUses[use].released)
  {
    var op := OpRelease(use, inc, c);
    ReleaseKeepsUses(s, use, inc, c, n);
    KeyedStep(s, op);
    StepRelease(s, op);
    assert KeepsClosed(s, Release(s, use, inc, c).0);
    hide Step, Release, Keyed, AdmissionClosed, SameEvidence, SameDefinitions, KeepsFences, Continues, AddsNoCurrent,
      KeepsAttempts, SameActivations;
  }

  lemma ReleaseIsSafe(s: Sys, inc: u64, ok: bool, now: u64, n: nat)
    requires Safe(s, inc, n + 1) && (s.pc.Releasing? || s.pc.ReleasingFailed?)
    ensures Safe(DispatchStep(s, inc, ok, now), inc, n)
  {
    ReleaseFacts(s.rt, inc, s.pc.use, ClosingOf(s.pc, now), n);
    hide Release, Keyed, FreshUses, UsesKept, DrainLast, NoDrainSent, AdmissionClosed;
    ClosedKept(s, DispatchStep(s, inc, ok, now), inc);
    hide Closed;
  }

  lemma AcknowledgeFacts(s: State, inc: u64, n: nat)
    requires Keyed(s) && FreshUses(s, n + 1)
    ensures var t := AcknowledgeCleanup(s, inc).0;
            && Keyed(t) && FreshUses(t, n) && t.activeUses == s.activeUses
            && (AdmissionClosed(s, inc) ==> AdmissionClosed(t, inc))
  {
    var op := OpAcknowledgeCleanup(inc);
    KeyedStep(s, op);
    StepAcknowledge(s, op);
    assert KeepsClosed(s, AcknowledgeCleanup(s, inc).0);
    hide Step, AcknowledgeCleanup, Keyed, AdmissionClosed, SameEvidence, SameDefinitions, KeepsFences, Continues,
      AddsNoCurrent, KeepsAttempts, SameActivations;
  }

  lemma AcknowledgeIsSafe(s: Sys, inc: u64, ok: bool, now: u64, n: nat)
    requires Safe(s, inc, n + 1) && s.pc.Acknowledging?
    ensures Safe(DispatchStep(s, inc, ok, now), inc, n)
  {
    AcknowledgeFacts(s.rt, inc, n);
    hide AcknowledgeCleanup, Keyed, FreshUses, AdmissionClosed, DrainLast, NoDrainSent;
  }

  lemma SendIsSafe(s: Sys, inc: u64, ok: bool, now: u64, n: nat)
    requires Safe(s, inc, n + 1) && (s.pc.SendExecute? || s.pc.SendDrain?)
    requires s.pc.cmd.drain == s.pc.SendDrain?
    ensures Safe(DispatchStep(s, inc, ok, now), inc, n)
  {
    hide Keyed, AdmissionClosed;
  }

  /** Steps that leave the runtime, the sent frames and the uses alone. */
  lemma ElsewhereIsSafe(s: Sys, t: Sys, inc: u64, n: nat)
    requires Safe(s, inc, n + 1)
    requires t.rt == s.rt && t.net.sent == s.net.sent && t.mine == s.mine && t.drainers == s.drainers
    requires HasUse(s.pc) ==> HasUse(t.pc) && t.pc.use == s.pc.use
    requires HasUse(t.pc) ==> HasUse(s.pc)
    requires NoDrainSeen(s) ==> NoDrainSeen(t)
    ensures Safe(t, inc, n)
  {
    hide Keyed, AdmissionClosed, NoDrainSeen, DrainLast, NoDrainSent;
  }

  lemma ChecksAreSafe(s: Sys, inc: u64, ok: bool, now: u64, n: nat)
    requires Safe(s, inc, n + 1)
    requires s.pc.CheckEpoch? || s.pc.CheckAuthority? || s.pc.CheckFence? || s.pc.CheckDrain?
    ensures Safe(DispatchStep(s, inc, ok, now), inc, n)
  {
    hide Safe, AdmissionClosed, IncarnationFenced, NoDrainSent;
    ElsewhereIsSafe(s, DispatchStep(s, inc, ok, now), inc, n);
  }

  lemma ReceivingIsSafe(s: Sys, inc: u64, ok: bool, now: u64, n: nat)
    requires Safe(s, inc, n + 1) && (s.pc.AwaitExecute? || s.pc.AwaitDrain?)
    ensures Safe(DispatchStep(s, inc, ok, now), inc, n)
  {
    hide Safe, AdmissionClosed, NoDrainSent;
    ElsewhereIsSafe(s, DispatchStep(s, inc, ok, now), inc, n);
  }

  lemma QueueingIsSafe(s: Sys, inc: u64, ok: bool, now: u64, n: nat)
    requires Safe(s, inc, n + 1)
    requires s.pc.Starting? || s.pc.LoopHead? || s.pc.FailStore? || s.pc.FailSwap? || s.pc.FailSettle?
             || s.pc.FailClose? || s.pc.Settling? || s.pc.Exited?
    ensures Safe(DispatchStep(s, inc, ok, now), inc, n)
  {
    hide Safe, AdmissionClosed, NoDrainSent;
    ElsewhereIsSafe(s, DispatchStep(s, inc, ok, now), inc, n);
  }

  lemma DispatcherIsSafe(s: Sys, inc: u64, ok: bool, now: u64, n: nat)
    requires Safe(s, inc, n + 1)
    requires s.pc.SendExecute? || s.pc.SendDrain? ==> s.pc.cmd.drain == s.pc.SendDrain?
    ensures Safe(DispatchStep(s, inc, ok, now), inc, n)
  {
    hide Safe, DispatchStep;
    match s.pc {
      case Acquiring(_) => AcquireIsSafe(s, inc, ok, now, n);
      case Releasing(_, _) => ReleaseIsSafe(s, inc, ok, now, n);
      case ReleasingFailed(_, _) => ReleaseIsSafe(s, inc, ok, now, n);
      case Acknowledging(_) => AcknowledgeIsSafe(s, inc, ok, now, n);
      case SendExecute(_, _) => SendIsSafe(s, inc, ok, now, n);
      case SendDrain(_) => SendIsSafe(s, inc, ok, now, n);
      case AwaitExecute(_, _) => ReceivingIsSafe(s, inc, ok, now, n);
      case AwaitDrain(_) => ReceivingIsSafe(s, inc, ok, now, n);
      case CheckEpoch(_) => ChecksAreSafe(s, inc, ok, now, n);
      case CheckAuthority(_) => ChecksAreSafe(s, inc, ok, now, n);
      case CheckFence(_) => ChecksAreSafe(s, inc, ok, now, n);
      case CheckDrain(_) => ChecksAreSafe(s, inc, ok, now, n);
      case _ => QueueingIsSafe(s, inc, ok, now, n);
    }
  }

  lemma WorkerIsSafe(s: Sys, inc: u64, a: Act, n: nat)
    requires Safe(s, inc, n + 1) && (a.WorkerTake? || a.WorkerWork? || a.WorkerReply? || a.WorkerStop?)
    ensures Safe(Next(s, inc, a), inc, n)
  {
    assert WorkerStep(s.net, a).sent == s.net.sent;
    hide Safe, WorkerStep, NoDrainSent;
    ElsewhereIsSafe(s, s.(net := WorkerStep(s.net, a)), inc, n);
  }

  lemma StepIsSafe(s: Sys, inc: u64, a: Act, n: nat)
    requires Safe(s, inc, n + 1) && Correlated(s)
    ensures Safe(Next(s, inc, a), inc, n)
  {
    hide Safe;
    match a {
      case RuntimeCall(op) =>
        hide Next;
        RuntimeCallIsSafe(s, inc, op, n);
      case RequestDrainFirst =>
        hide Next;
        RequestIsSafe(s, inc, n);
      case EnqueueCheck(_, _, _, _, _) =>
        hide Next;
        ControllerIsSafe(s, inc, a, n);
      case EnqueuePush =>
        hide Next;
        ControllerIsSafe(s, inc, a, n);
      case Dispatch(ok, now) =>
        hide DispatchStep, InStep, Truthful;
        DispatcherIsSafe(s, inc, ok, now, n);
      case _ =>
        hide Next;
        WorkerIsSafe(s, inc, a, n);
    }
  }

  lemma {:induction false} SafeOverRuns(s: Sys, inc: u64, acts: seq<Act>, n: nat)
    requires Safe(s, inc, |acts| + n) && Correlated(s)
    ensures Safe(Runs(s, inc, acts), inc, n) && Correlated(Runs(s, inc, acts))
    decreases |acts|
  {
    if acts != [] {
      StepIsSafe(s, inc, acts[0], |acts| - 1 + n);
      StepCorrelates(s, inc, acts[0]);
      hide Next, Safe, Correlated;
      SafeOverRuns(Next(s, inc, acts[0]), inc, acts[1..], n);
    }
  }

  /** A reachable state: n more ids fit, and both invariants hold. */
  lemma ReachableIsSafe(s: Sys, inc: u64, acts: seq<Act>, n: nat)
    requires Fresh(s) && Keyed(s.rt) && FreshUses(s.rt, |acts| + n)
    ensures Safe(Runs(s, inc, acts), inc, n) && Correlated(Runs(s, inc, acts))
  {
    FreshIsSafe(s, inc, |acts| + n);
    FreshCorrelated(s);
    hide Fresh, Runs, Safe, Correlated;
    SafeOverRuns(s, inc, acts, n);
  }

  /** No use that the router acquired is open. */
  ghost predicate OwnUsesClosed(s: Sys)
  {
    forall u :: u in s.mine ==> u in s.rt.activeUses && s.rt.activeUses[u].released
  }

  /** A DRAIN was sent, or is about to be. */
  ghost predicate DrainDue(s: Sys)
  {
    s.pc.SendDrain? || !NoDrainSent(s.net.sent)
  }

  /** From a new router on, in every interleaving of controllers, dispatcher, worker and other callers of
      the runtime: after a DRAIN frame only DRAINs are sent; from the moment one is about to be sent,
      admission is fenced and every use that the router acquired is closed; no EXECUTE runs on a
      released backend; and when the cleanup is acknowledged to the runtime the backend was released. */
  lemma DrainProtocol(s: Sys, inc: u64, acts: seq<Act>)
    requires Fresh(s) && Keyed(s.rt) && FreshUses(s.rt, |acts|)
    ensures var t := Runs(s, inc, acts);
            && DrainLast(t.net.sent)
            && (DrainDue(t) ==> AdmissionClosed(t.rt, inc) && OwnUsesClosed(t))
            && (t.net.phase.Busy? && t.net.phase.frame.drain ==> OwnUsesClosed(t))
            && (t.net.phase.Busy? ==> !t.net.released)
            && (t.pc.Acknowledging? ==> t.net.released && OwnUsesClosed(t))
  {
    ReachableIsSafe(s, inc, acts, 0);
    hide Fresh, Runs, Keyed, FreshUses, AdmissionClosed, DrainLast, NoDrainSeen, Closed, InStep;
    var t := Runs(s, inc, acts);
    if DrainDue(t) {
      DrainedMeansClosed(t, inc, 0);
    }
    if t.pc.Acknowledging? {
      AcknowledgedMeansClosed(t, inc, 0);
    }
  }

  lemma AcknowledgedMeansClosed(s: Sys, inc: u64, n: nat)
    requires Safe(s, inc, n) && s.pc.Acknowledging?
    ensures OwnUsesClosed(s)
  {
    hide Keyed, FreshUses, AdmissionClosed;
  }
}
