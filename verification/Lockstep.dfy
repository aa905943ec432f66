/** Replies belong to the command just sent although nobody compares ids (session.cpp:273-343,
    worker_main.cpp:123-170). */
module Lockstep {
  import opened Prelude
  import opened Records
  import opened RuntimeState
  import opened RuntimeRuns
  import opened Router

  /** The frame that the worker holds. */
  function Held(p: Phase): seq<Frame>
  {
    match p
    case Waiting => []
    case Busy(f) => [f]
    case Replying(f) => [f]
    case Stopped => []
  }

  /** All frames under way, in either channel or inside the worker. */
  function Outstanding(n: Net): seq<Frame>
  {
    n.toWorker + Held(n.phase) + n.toRouter
  }

  /** The command whose reply the dispatcher waits for. */
  function Awaited(pc: Pc): Option<Cmd>
  {
    match pc
    case AwaitExecute(c, _) => Some(c)
    case AwaitDrain(c) => Some(c)
    case _ => None
  }

  /** The dispatcher has stopped talking to this worker for good. */
  predicate GaveUp(s: Sys)
  {
    !s.q.alive || s.pc.ReleasingFailed? || s.pc.FailStore?
  }

  /** The states of process before it answers; alive_ is still true there. */
  predicate Working(pc: Pc)
  {
    pc.CheckEpoch? || pc.CheckAuthority? || pc.CheckFence? || pc.CheckDrain? || pc.Acquiring? || pc.SendExecute?
    || pc.AwaitExecute? || pc.Releasing? || pc.ReleasingFailed? || pc.SendDrain? || pc.AwaitDrain? || pc.Acknowledging?
  }

  /** At most one frame is under way, and unless the dispatcher gave up it belongs to the command it
      is waiting for. */
  ghost predicate InStep(s: Sys)
  {
    && |Outstanding(s.net)| <= 1
    && (Working(s.pc) ==> s.q.alive)
    && (GaveUp(s) || forall f :: f in Outstanding(s.net) ==> Awaited(s.pc).Some? && f == FrameOf(Awaited(s.pc).value))
  }

  /** What a reply tells: the worker has finished that command, and released its backend for a drain.
      While it takes or runs a command its backend is not released, and once it stopped it is; and it runs only
      what was sent. */
  ghost predicate Truthful(n: Net)
  {
    && (forall f :: f in n.toRouter ==> f.ticket in n.finished && (f.drain ==> n.released))
    && (n.phase.Replying? ==> n.phase.frame.ticket in n.finished && n.phase.frame.drain == n.released)
    && (n.phase.Waiting? || n.phase.Busy? ==> !n.released) && (n.phase.Stopped? ==> n.released)
    && (forall f :: f in n.toWorker + Held(n.phase) ==> f in n.sent)
  }

  predicate Executing(pc: Pc)
  {
    pc.CheckFence? || pc.CheckDrain? || pc.Acquiring? || pc.SendExecute? || pc.AwaitExecute? || pc.Releasing?
  }

  /** Commands reported as successful were finished by the worker; a drain is acknowledged to the
      runtime only after the backend was released. */
  ghost predicate Honest(s: Sys)
  {
    && s.q.succeeded <= s.net.finished
    && (s.pc.Releasing? || s.pc.Acknowledging? || (s.pc.Settling? && s.pc.ok) ==> s.pc.cmd.ticket in s.net.finished)
    && (Executing(s.pc) ==> !s.pc.cmd.drain)
    && (s.pc.SendDrain? || s.pc.AwaitDrain? || s.pc.Acknowledging? ==> s.pc.cmd.drain)
    && (s.pc.Acknowledging? ==> s.net.released)
  }

  ghost predicate Correlated(s: Sys)
  {
    InStep(s) && Truthful(s.net) && Honest(s)
  }

  lemma FreshCorrelated(s: Sys)
    requires Fresh(s)
    ensures Correlated(s)
  {
  }

  lemma CorrelatedReply(s: Sys)
    requires Correlated(s) && Awaited(s.pc).Some? && s.net.toRouter != []
    ensures s.net.toRouter == [FrameOf(Awaited(s.pc).value)]
    ensures Awaited(s.pc).value.ticket in s.net.finished
    ensures Awaited(s.pc).value.drain ==> s.net.released
  {
    assert s.net.toRouter[0] in Outstanding(s.net);
    assert Working(s.pc) && !GaveUp(s);
  }

  /* ---- the worker ---- */

  lemma WorkerKeepsStep(n: Net, a: Act)
    ensures |Outstanding(WorkerStep(n, a))| <= |Outstanding(n)|
    ensures forall f :: f in Outstanding(WorkerStep(n, a)) ==> f in Outstanding(n)
  {
    var m := WorkerStep(n, a);
    if a.WorkerTake? && n.phase.Waiting? && n.toWorker != [] {
      assert Outstanding(m) == n.toWorker[1..] + [n.toWorker[0]] + n.toRouter;
      assert n.toWorker == [n.toWorker[0]] + n.toWorker[1..];
    }
  }

  lemma WorkerIsTruthful(n: Net, a: Act)
    requires Truthful(n)
    ensures Truthful(WorkerStep(n, a)) && n.finished <= WorkerStep(n, a).finished
    ensures n.released ==> WorkerStep(n, a).released
  {
  }

  /** A reply that cannot be sent is lost, and nothing else is. */
  lemma LostReply(n: Net)
    requires n.phase.Replying?
    ensures Outstanding(WorkerStep(n, WorkerReply(false))) == n.toWorker + n.toRouter
    ensures Outstanding(WorkerStep(n, WorkerReply(true))) == n.toWorker + (n.toRouter + [n.phase.frame])
  {
  }

  lemma WorkerCorrelates(s: Sys, inc: u64, a: Act)
    requires Correlated(s) && (a.WorkerTake? || a.WorkerWork? || a.WorkerReply? || a.WorkerStop?)
    ensures Correlated(Next(s, inc, a))
  {
    assert Next(s, inc, a) == s.(net := WorkerStep(s.net, a));
    WorkerKeepsStep(s.net, a);
    WorkerIsTruthful(s.net, a);
    hide WorkerStep, Outstanding, Truthful, Next;
  }

  /* ---- the dispatcher ---- */

  lemma HasMember(fs: seq<Frame>)
    ensures fs != [] ==> exists f :: f in fs
  {
    if fs != [] {
      assert fs[0] in fs;
    }
  }

  lemma SendKeepsStep(s: Sys, ok: bool, sent: Pc, failed: Pc)
    requires Correlated(s) && (s.pc.SendExecute? || s.pc.SendDrain?)
    requires if s.pc.SendExecute?
             then sent == AwaitExecute(s.pc.cmd, s.pc.use) && failed == ReleasingFailed(s.pc.cmd, s.pc.use)
             else sent == AwaitDrain(s.pc.cmd) && failed == FailStore(Some(s.pc.cmd))
    ensures Correlated(SendStep(s, s.pc.cmd, ok, sent, failed))
  {
    assert Working(s.pc) && !GaveUp(s) && Awaited(s.pc).None?;
    HasMember(Outstanding(s.net));
    assert s.net.toWorker == [] && Held(s.net.phase) == [] && s.net.toRouter == [];
  }

  lemma SendCorrelates(s: Sys, inc: u64, ok: bool, now: u64)
    requires Correlated(s) && (s.pc.SendExecute? || s.pc.SendDrain?)
    ensures Correlated(DispatchStep(s, inc, ok, now))
  {
    hide Correlated, SendStep;
    if s.pc.SendExecute? {
      SendKeepsStep(s, ok, AwaitExecute(s.pc.cmd, s.pc.use), ReleasingFailed(s.pc.cmd, s.pc.use));
    } else {
      SendKeepsStep(s, ok, AwaitDrain(s.pc.cmd), FailStore(Some(s.pc.cmd)));
    }
  }

  lemma ReceiveCorrelates(s: Sys, inc: u64, ok: bool, now: u64)
    requires Correlated(s) && (s.pc.AwaitExecute? || s.pc.AwaitDrain?)
    ensures Correlated(DispatchStep(s, inc, ok, now))
  {
    if ok && s.net.toRouter != [] {
      CorrelatedReply(s);
      assert s.net.toWorker == [] && Held(s.net.phase) == [];
    }
  }

  lemma OthersCorrelate(s: Sys, inc: u64, ok: bool, now: u64)
    requires Correlated(s)
    requires !s.pc.SendExecute? && !s.pc.SendDrain? && !s.pc.AwaitExecute? && !s.pc.AwaitDrain?
    ensures Correlated(DispatchStep(s, inc, ok, now))
  {
    hide Outstanding, Truthful, Acquire, Release, AcknowledgeCleanup, IncarnationFenced, AdmissionClosed;
  }

  lemma StepCorrelates(s: Sys, inc: u64, a: Act)
    requires Correlated(s)
    ensures Correlated(Next(s, inc, a))
  {
    if a.Dispatch? {
      assert Next(s, inc, a) == DispatchStep(s, inc, a.ok, a.now);
      hide Next, DispatchStep, Correlated;
      if s.pc.SendExecute? || s.pc.SendDrain? {
        SendCorrelates(s, inc, a.ok, a.now);
      } else if s.pc.AwaitExecute? || s.pc.AwaitDrain? {
        ReceiveCorrelates(s, inc, a.ok, a.now);
      } else {
        OthersCorrelate(s, inc, a.ok, a.now);
      }
    } else if a.WorkerTake? || a.WorkerWork? || a.WorkerReply? || a.WorkerStop? {
      hide Next, Correlated;
      WorkerCorrelates(s, inc, a);
    } else {
      hide Outstanding, Truthful, Step, RequestDrain;
    }
  }

  lemma {:induction false} CorrelatesOverRuns(s: Sys, inc: u64, acts: seq<Act>)
    requires Correlated(s)
    ensures Correlated(Runs(s, inc, acts))
    decreases |acts|
  {
    if acts != [] {
      StepCorrelates(s, inc, acts[0]);
      hide Next, Correlated;
      CorrelatesOverRuns(Next(s, inc, acts[0]), inc, acts[1..]);
    }
  }

  /** From a new router on, in every interleaving, at most one frame is under way; unless the dispatcher
      gave up, it belongs to the command that was just sent; and what was reported as done was done. */
  lemma RepliesCorrelate(s: Sys, inc: u64, acts: seq<Act>)
    requires Fresh(s)
    ensures var t := Runs(s, inc, acts); InStep(t) && Truthful(t.net) && Honest(t)
  {
    FreshCorrelated(s);
    CorrelatesOverRuns(s, inc, acts);
    hide Runs, Fresh;
  }

  /** Whenever the dispatcher finds a reply, it is the reply to the command it sent. */
  lemma ReplyMatches(s: Sys, inc: u64, acts: seq<Act>)
    requires Fresh(s)
    ensures var t := Runs(s, inc, acts);
            Awaited(t.pc).Some? && t.net.toRouter != [] ==>
              var c := Awaited(t.pc).value;
              && t.net.toRouter == [FrameOf(c)] && c.ticket in t.net.finished && (c.drain ==> t.net.released)
  {
    FreshCorrelated(s);
    CorrelatesOverRuns(s, inc, acts);
    var t := Runs(s, inc, acts);
    hide Runs, Fresh, Correlated;
    if Awaited(t.pc).Some? && t.net.toRouter != [] {
      CorrelatedReply(t);
    }
  }
}
