/** Uses that the router did not acquire (session.hpp:47-54): a drain does not wait for them. When they
    are closed all the same, and when the backend is released under one. */
module ForeignUses {
  import opened Prelude
  import opened Errors
  import opened Records
  import opened RuntimeState
  import opened RuntimeRuns
  import opened Accounting
  import opened Drains
  import opened Router
  import opened Lockstep
  import opened DrainSafety

  /** The open uses of the incarnation that the router did not acquire. */
  function ForeignOpen(s: Sys, inc: u64): set<u64>
  {
    OpenFor(s.rt.activeUses, inc) - s.mine
  }

  lemma OwnUsesAreOut(s: Sys, inc: u64)
    requires OwnUsesClosed(s)
    ensures OpenFor(s.rt.activeUses, inc) == ForeignOpen(s, inc)
    ensures OpenFor(s.rt.activeUses, inc) == {} <==>
              forall u :: u in s.rt.activeUses && s.rt.activeUses[u].incarnationId == inc && u !in s.mine ==>
                s.rt.activeUses[u].released
  {
    var uses, open := s.rt.activeUses, OpenFor(s.rt.activeUses, inc);
    assert forall u :: u in open <==> u in uses && !uses[u].released && uses[u].incarnationId == inc;
    if open != {} {
      var u :| u in open;
      assert u !in s.mine;
    }
  }

  /** The dispatcher waits for its own uses only: from the moment a DRAIN is about to be sent, no use of
      the incarnation is open exactly when those that others acquired are all released. */
  lemma CleanupWaitsForOwnUses(s: Sys, inc: u64, acts: seq<Act>)
    requires Fresh(s) && Keyed(s.rt) && FreshUses(s.rt, |acts|) && DrainDue(Runs(s, inc, acts))
    ensures var t := Runs(s, inc, acts);
            && OpenFor(t.rt.activeUses, inc) == ForeignOpen(t, inc)
            && (OpenFor(t.rt.activeUses, inc) == {} <==>
                  forall u :: u in t.rt.activeUses && t.rt.activeUses[u].incarnationId == inc && u !in t.mine ==>
                    t.rt.activeUses[u].released)
  {
    DrainProtocol(s, inc, acts);
    hide Fresh, Runs, Keyed, FreshUses, DrainDue, OwnUsesClosed;
    OwnUsesAreOut(Runs(s, inc, acts), inc);
  }

  /** Every step leaves the runtime alone or performs one of its operations. */
  ghost function OpOf(s: Sys, inc: u64, a: Act): Option<Op>
  {
    match a
    case RuntimeCall(op) => if op.OpLoad? then None else Some(op)
    case RequestDrainFirst => Some(OpRequestDrain(inc))
    case Dispatch(_, now) => CallOf(s.pc, inc, now)
    case _ => None
  }

  function CallOf(pc: Pc, inc: u64, now: u64): Option<Op>
  {
    match pc
    case Acquiring(c) => Some(OpAcquire(inc, c.wanted, now))
    case Releasing(_, use) => Some(OpRelease(use, inc, ClosingOf(pc, now)))
    case ReleasingFailed(_, use) => Some(OpRelease(use, inc, ClosingOf(pc, now)))
    case Acknowledging(_) => Some(OpAcknowledgeCleanup(inc))
    case _ => None
  }

  lemma DispatchCalls(s: Sys, inc: u64, ok: bool, now: u64)
    ensures var op := CallOf(s.pc, inc, now); var t := DispatchStep(s, inc, ok, now);
            && (op.Some? ==> !op.value.OpLoad?)
            && t.rt == if op.Some? then Step(s.rt, op.value).0 else s.rt
  {
    hide Step, Acquire, Release, AcknowledgeCleanup, CheckStep;
    match s.pc {
      case Acquiring(c) => StepAcquire(s.rt, OpAcquire(inc, c.wanted, now));
      case Releasing(_, use) => StepRelease(s.rt, OpRelease(use, inc, ClosingOf(s.pc, now)));
      case ReleasingFailed(_, use) => StepRelease(s.rt, OpRelease(use, inc, ClosingOf(s.pc, now)));
      case Acknowledging(_) => StepAcknowledge(s.rt, OpAcknowledgeCleanup(inc));
      case _ =>
    }
  }

  lemma NextCalls(s: Sys, inc: u64, a: Act)
    ensures var op := OpOf(s, inc, a); var t := Next(s, inc, a);
            && (op.Some? ==> !op.value.OpLoad?)
            && t.rt == if op.Some? then Step(s.rt, op.value).0 else s.rt
  {
    hide Step, RequestDrain, DispatchStep, WorkerStep;
    if a.Dispatch? {
      DispatchCalls(s, inc, a.ok, a.now);
    } else if a.RequestDrainFirst? {
      StepRequestDrain(s.rt, OpRequestDrain(inc));
    }
  }

  /** How the uses may change once admission is fenced. */
  ghost predicate OnlyCloses(s: State, t: State, inc: u64)
  {
    && Keyed(t) && AdmissionClosed(t, inc)
    && OpenFor(t.activeUses, inc) <= OpenFor(s.activeUses, inc) && UsesKept(s.activeUses, t.activeUses)
  }

  lemma StepOnlyCloses(s: Sys, inc: u64, a: Act, n: nat)
    requires Keyed(s.rt) && AdmissionClosed(s.rt, inc) && FreshUses(s.rt, n + 1)
    ensures OnlyCloses(s.rt, Next(s, inc, a).rt, inc) && FreshUses(Next(s, inc, a).rt, n)
  {
    NextCalls(s, inc, a);
    hide Next, OpOf, Keyed, AdmissionClosed, OpenFor, Step;
    var op := OpOf(s, inc, a);
    if op.Some? {
      ClosedStep(s.rt, op.value, inc);
      StepKeepsUses(s.rt, op.value, n);
    }
  }

  lemma AcquiresNothing(s: Sys, inc: u64, a: Act)
    requires AdmissionClosed(s.rt, inc)
    ensures Next(s, inc, a).mine == s.mine
  {
    hide AdmissionClosed, Step, RequestDrain, Acquire, Release, AcknowledgeCleanup, CheckStep, WorkerStep;
    if a.Dispatch? && s.pc.Acquiring? {
      ClosedToAcquire(s.rt, inc, s.pc.cmd.wanted, a.now);
      AcquireTells(s.rt, inc, s.pc.cmd.wanted, a.now);
    }
  }

  lemma {:induction false} RunOnlyCloses(s: Sys, inc: u64, acts: seq<Act>)
    requires Keyed(s.rt) && AdmissionClosed(s.rt, inc) && FreshUses(s.rt, |acts|)
    ensures OnlyCloses(s.rt, Runs(s, inc, acts).rt, inc) && Runs(s, inc, acts).mine == s.mine
    decreases |acts|
  {
    if acts != [] {
      StepOnlyCloses(s, inc, acts[0], |acts| - 1);
      AcquiresNothing(s, inc, acts[0]);
      hide Next, Keyed, AdmissionClosed, OpenFor, FreshUses;
      RunOnlyCloses(Next(s, inc, acts[0]), inc, acts[1..]);
      KeptOnward(s.rt.activeUses, Next(s, inc, acts[0]).rt.activeUses, Runs(s, inc, acts).rt.activeUses);
      hide UsesKept;
    }
  }

  lemma KeptOnward(a: map<u64, Use>, b: map<u64, Use>, c: map<u64, Use>)
    requires UsesKept(a, b) && UsesKept(b, c)
    ensures UsesKept(a, c)
  {
  }

  /** Seen from the drain request, or from whatever else fenced admission: the uses of others can from
      then on only be released; and when a DRAIN is about to be sent, or later, no use at all is open
      exactly when each of those that were open then has been released. */
  lemma CleanupFollowsClosure(s: Sys, inc: u64, before: seq<Act>, after: seq<Act>)
    requires Fresh(s) && Keyed(s.rt) && FreshUses(s.rt, |before| + |after|)
    requires AdmissionClosed(Runs(s, inc, before).rt, inc)
    ensures var m := Runs(s, inc, before);
            var t := Runs(m, inc, after);
            && ForeignOpen(t, inc) <= ForeignOpen(m, inc) && t.mine == m.mine
            && (DrainDue(t) ==>
                  && OpenFor(t.rt.activeUses, inc) == ForeignOpen(t, inc)
                  && (OpenFor(t.rt.activeUses, inc) == {} <==>
                        forall u :: u in ForeignOpen(m, inc) ==> u in t.rt.activeUses && t.rt.activeUses[u].released))
  {
    ReachableIsSafe(s, inc, before, |after|);
    var m := Runs(s, inc, before);
    SafeOverRuns(m, inc, after, 0);
    SafeMeans(m, inc, |after|);
    hide Fresh, Runs, Keyed, FreshUses, AdmissionClosed, DrainDue, Safe, Correlated, OpenFor;
    RunOnlyCloses(m, inc, after);
    var t := Runs(m, inc, after);
    if DrainDue(t) {
      DrainingMeansClosed(t, inc);
      OwnUsesAreOut(t, inc);
      hide OwnUsesClosed;
      EmptyMeansReleased(m.rt.activeUses, t.rt.activeUses, inc, m.mine);
    }
  }

  lemma EmptyMeansReleased(a: map<u64, Use>, b: map<u64, Use>, inc: u64, mine: set<u64>)
    requires UsesKept(a, b) && OpenFor(b, inc) <= OpenFor(a, inc) && OpenFor(b, inc) !! mine
    ensures OpenFor(b, inc) == {} <==> forall u :: u in OpenFor(a, inc) - mine ==> u in b && b[u].released
  {
    if OpenFor(b, inc) == {} {
      forall u | u in OpenFor(a, inc) - mine
        ensures u in b && b[u].released
      {
        assert u !in OpenFor(b, inc);
      }
    } else {
      var u :| u in OpenFor(b, inc);
      assert u in OpenFor(a, inc) - mine;
    }
  }

  lemma DrainingMeansClosed(s: Sys, inc: u64)
    requires Safe(s, inc, 0) && DrainDue(s)
    ensures OwnUsesClosed(s)
  {
    hide Keyed, FreshUses, AdmissionClosed;
    DrainedMeansClosed(s, inc, 0);
  }

  /* ---- a backend released under a use ---- */

  lemma RunsFirst(s: Sys, inc: u64, a: Act, rest: seq<Act>)
    ensures Runs(s, inc, [a] + rest) == Runs(Next(s, inc, a), inc, rest)
  {
    assert ([a] + rest)[1..] == rest;
    hide Next;
  }

  /** A drain command that names neither epoch nor authority. */
  function DrainCommand(w: Wanted): Act
  {
    EnqueueCheck(true, 0, 0, 0, w)
  }

  lemma RunsNone(s: Sys, inc: u64)
    ensures Runs(s, inc, []) == s
  {
  }

  /** The dispatcher takes a drain command from the queue, checks it and sends it. */
  function TakeAndSend(now: u64): seq<Act>
  {
    var d := Dispatch(true, now);
    [d] + ([d] + ([d] + ([d] + [])))
  }

  lemma DrainIsSent(s: Sys, inc: u64, c: Cmd, now: u64)
    requires s.pc.LoopHead? && s.q.alive && s.q.holder.None? && s.q.items == [c]
    requires c.drain && c.epoch == 0 && c.authority == 0
    ensures Runs(s, inc, TakeAndSend(now)) ==
            s.(q := Pop(s.q), pc := AwaitDrain(c),
               net := s.net.(toWorker := s.net.toWorker + [FrameOf(c)], sent := s.net.sent + [FrameOf(c)]))
  {
    hide Runs, Acquire, Release, AcknowledgeCleanup;
    var d := Dispatch(true, now);
    var s1 := Next(s, inc, d);
    var s2 := Next(s1, inc, d);
    var s3 := Next(s2, inc, d);
    var s4 := Next(s3, inc, d);
    RunsFirst(s, inc, d, [d] + ([d] + ([d] + [])));
    RunsFirst(s1, inc, d, [d] + ([d] + []));
    RunsFirst(s2, inc, d, [d] + []);
    RunsFirst(s3, inc, d, []);
    RunsNone(s4, inc);
  }

  /** The router starts, a controller requests a drain and enqueues the command. */
  function RequestAndEnqueue(w: Wanted, now: u64): seq<Act>
  {
    [Dispatch(true, now)] + ([RequestDrainFirst] + ([DrainCommand(w)] + ([EnqueuePush] + [])))
  }

  lemma DrainIsQueued(s: Sys, inc: u64, w: Wanted, now: u64)
    requires Fresh(s) && RequestDrain(s.rt, inc).1.Done?
    ensures var t := Runs(s, inc, RequestAndEnqueue(w, now));
            && t.rt == RequestDrain(s.rt, inc).0 && t.mine == {} && t.pc == LoopHead && t.net == s.net
            && t.q.alive && t.q.holder.None? && t.q.items == [Cmd(0, true, 0, 0, 0, w)]
  {
    hide Runs, RequestDrain, Acquire, Release, AcknowledgeCleanup;
    var s1 := Next(s, inc, Dispatch(true, now));
    var s2 := Next(s1, inc, RequestDrainFirst);
    var s3 := Next(s2, inc, DrainCommand(w));
    var s4 := Next(s3, inc, EnqueuePush);
    RunsFirst(s, inc, Dispatch(true, now), [RequestDrainFirst] + ([DrainCommand(w)] + ([EnqueuePush] + [])));
    RunsFirst(s1, inc, RequestDrainFirst, [DrainCommand(w)] + ([EnqueuePush] + []));
    RunsFirst(s2, inc, DrainCommand(w), [EnqueuePush] + []);
    RunsFirst(s3, inc, EnqueuePush, []);
    RunsNone(s4, inc);
  }

  function TakeAndWork(): seq<Act>
  {
    [WorkerTake] + ([WorkerWork] + [])
  }

  lemma WorkerReleases(s: Sys, inc: u64, f: Frame)
    requires s.net.phase.Waiting? && s.net.toWorker == [f] && f.drain
    ensures var t := Runs(s, inc, TakeAndWork()); t.net.released && t.rt == s.rt && t.mine == s.mine
  {
    hide Runs;
    var s1 := Next(s, inc, WorkerTake);
    var s2 := Next(s1, inc, WorkerWork);
    RunsFirst(s, inc, WorkerTake, [WorkerWork] + []);
    RunsFirst(s1, inc, WorkerWork, []);
    RunsNone(s2, inc);
  }

  lemma RequestKeepsUses(s: State, inc: u64)
    ensures RequestDrain(s, inc).0.activeUses == s.activeUses
  {
    assert SameUses(s, RequestDrain(s, inc).0);
    hide RequestDrain;
  }

  /** Whenever somebody else has a use of the incarnation open and the incarnation can be drained, these
      three stretches, one after the other, end with the backend released and that use still open. */
  lemma ReleasedUnderUse(s: Sys, inc: u64, u: u64, w: Wanted, now: u64)
    requires Fresh(s) && RequestDrain(s.rt, inc).1.Done? && u in OpenFor(s.rt.activeUses, inc)
    ensures var queued := Runs(s, inc, RequestAndEnqueue(w, now));
            var sent := Runs(queued, inc, TakeAndSend(now));
            var t := Runs(sent, inc, TakeAndWork());
            t.net.released && u in OpenFor(t.rt.activeUses, inc) && u !in t.mine
  {
    var c := Cmd(0, true, 0, 0, 0, w);
    DrainIsQueued(s, inc, w, now);
    RequestKeepsUses(s.rt, inc);
    hide RequestDrain, Runs, RequestAndEnqueue, TakeAndSend, TakeAndWork, OpenFor;
    var queued := Runs(s, inc, RequestAndEnqueue(w, now));
    DrainIsSent(queued, inc, c, now);
    WorkerReleases(Runs(queued, inc, TakeAndSend(now)), inc, FrameOf(c));
  }
}
