/** One routed command with nobody interfering (session.cpp:253-343, worker_main.cpp:123-170): what the
    dispatcher and the worker make of it, and what the controller is told. */
module Turns {
  import opened Prelude
  import opened Errors
  import opened Records
  import opened RuntimeState
  import opened RuntimeRuns
  import opened Accounting
  import opened Drains
  import opened Router
  import opened DrainSafety
  import W = WorkerRouters

  /** n steps of the dispatcher whose sends and receives succeed. */
  function Dispatched(s: Sys, inc: u64, now: u64, n: nat): Sys
    decreases n
  {
    if n == 0 then s else Dispatched(DispatchStep(s, inc, true, now), inc, now, n - 1)
  }

  /** The worker takes a frame, works on it and replies, if there is one. */
  function WorkerTurn(s: Sys): Sys
  {
    s.(net := WorkerStep(WorkerStep(WorkerStep(s.net, WorkerTake), WorkerWork), WorkerReply(true)))
  }

  /** The dispatcher is at the head of its loop, this command is the only one, and nothing is under way. */
  predicate Ready(s: Sys, c: Cmd)
  {
    && s.pc.LoopHead? && s.q.alive && s.q.holder.None? && s.q.items == [c]
    && s.net.toWorker == [] && s.net.toRouter == [] && s.net.phase.Waiting? && !s.net.released
  }

  /** The command names no epoch or authority, or the present ones. */
  predicate UpToDate(s: State, c: Cmd)
  {
    (c.epoch == 0 || c.epoch == s.epoch) && (c.authority == 0 || c.authority == s.authority)
  }

  /** The command was answered, and otherwise nothing happened to the queue. */
  function AnsweredWith(s: Sys, c: Cmd, ok: bool): Sys
  {
    s.(q := Settle(s.q.(items := []), c, ok), pc := LoopHead)
  }

  /* ---- the dispatcher steps ---- */

  lemma Idles(s: Sys, inc: u64, now: u64, n: nat)
    requires s.pc.LoopHead? && s.q.alive && s.q.items == []
    ensures Dispatched(s, inc, now, n) == s
    decreases n
  {
    if n > 0 {
      Idles(s, inc, now, n - 1);
    }
  }

  lemma WorkerIdles(s: Sys)
    requires s.net.phase.Waiting? && s.net.toWorker == []
    ensures WorkerTurn(s) == s
  {
  }

  lemma Pops(s: Sys, inc: u64, now: u64, c: Cmd)
    requires Ready(s, c)
    ensures DispatchStep(s, inc, true, now) == s.(q := s.q.(items := []), pc := CheckEpoch(c))
  {
    assert [c][1..] == [];
  }

  lemma Answers(s: Sys, inc: u64, now: u64, c: Cmd, ok: bool, n: nat)
    requires s.pc == Settling(c, ok) && s.q.alive && s.q.items == [] && n > 0
    ensures Dispatched(s, inc, now, n) == AnsweredWith(s, c, ok)
  {
    Idles(DispatchStep(s, inc, true, now), inc, now, n - 1);
  }

  /** After the pop: a stale command is answered, and a drain is sent at once. */
  lemma ChecksOrder(s: Sys, inc: u64, now: u64, c: Cmd, n: nat)
    requires s.pc == CheckEpoch(c) && s.q.alive && s.q.items == [] && n >= 3
    ensures Dispatched(s, inc, now, n) ==
            if UpToDate(s.rt, c)
            then Dispatched(s.(pc := if c.drain then SendDrain(c) else CheckFence(c)), inc, now, n - 2)
            else AnsweredWith(s, c, false)
  {
    var a := DispatchStep(s, inc, true, now);
    if a.pc.Settling? {
      Answers(a, inc, now, c, false, n - 1);
    } else {
      var b := DispatchStep(a, inc, true, now);
      assert Dispatched(a, inc, now, n - 1) == Dispatched(b, inc, now, n - 2);
      if b.pc.Settling? {
        Answers(b, inc, now, c, false, n - 2);
      }
    }
  }

  lemma FenceOrder(s: Sys, inc: u64, now: u64, c: Cmd, n: nat)
    requires s.pc == CheckFence(c) && s.q.alive && s.q.items == [] && n >= 3
    ensures Dispatched(s, inc, now, n) ==
            if IncarnationFenced(s.rt, inc) || AdmissionClosed(s.rt, inc) then AnsweredWith(s, c, false)
            else Dispatched(s.(pc := Acquiring(c)), inc, now, n - 2)
  {
    var a := DispatchStep(s, inc, true, now);
    hide IncarnationFenced, AdmissionClosed;
    if a.pc.Settling? {
      Answers(a, inc, now, c, false, n - 1);
    } else {
      var b := DispatchStep(a, inc, true, now);
      assert Dispatched(a, inc, now, n - 1) == Dispatched(b, inc, now, n - 2);
      if b.pc.Settling? {
        Answers(b, inc, now, c, false, n - 2);
      }
    }
  }

  lemma AcquireOrder(s: Sys, inc: u64, now: u64, c: Cmd, n: nat)
    requires s.pc == Acquiring(c) && s.q.alive && s.q.items == [] && n >= 2
    ensures var r := Acquire(s.rt, inc, c.wanted, now);
            Dispatched(s, inc, now, n) ==
            if r.1.Done?
            then Dispatched(s.(rt := r.0, pc := SendExecute(c, r.1.id), mine := s.mine + {r.1.id}), inc, now, n - 1)
            else AnsweredWith(s, c, false)
  {
    var a := DispatchStep(s, inc, true, now);
    RefusedAlone(s.rt, inc, c.wanted, now);
    hide Acquire, AcquireCheck, AdmissionClosed;
    if a.pc.Settling? {
      Answers(a, inc, now, c, false, n - 1);
    }
  }

  /** Then an EXECUTE passes the fence and the drain state and gets its use, or is answered. */
  lemma ExecuteOrder(s: Sys, inc: u64, now: u64, c: Cmd, n: nat)
    requires s.pc == CheckFence(c) && s.q.alive && s.q.items == [] && n >= 4
    ensures var r := Acquire(s.rt, inc, c.wanted, now);
            Dispatched(s, inc, now, n) ==
            if !IncarnationFenced(s.rt, inc) && r.1.Done?
            then Dispatched(s.(rt := r.0, pc := SendExecute(c, r.1.id), mine := s.mine + {r.1.id}), inc, now, n - 3)
            else AnsweredWith(s, c, false)
  {
    FenceOrder(s, inc, now, c, n);
    RefusedAlone(s.rt, inc, c.wanted, now);
    hide Dispatched, Acquire, AcquireCheck, IncarnationFenced, AdmissionClosed, AnsweredWith;
    if !IncarnationFenced(s.rt, inc) && !AdmissionClosed(s.rt, inc) {
      AcquireOrder(s.(pc := Acquiring(c)), inc, now, c, n - 2);
    }
  }

  /** A refused acquire changes nothing, and a closed admission refuses. */
  lemma RefusedAlone(s: State, inc: u64, w: Wanted, now: u64)
    ensures Acquire(s, inc, w, now).1.Threw? ==> Acquire(s, inc, w, now).0 == s
    ensures AdmissionClosed(s, inc) ==> Acquire(s, inc, w, now).1.Threw?
    ensures Acquire(s, inc, w, now).1.Done? <==> AcquireCheck(s, inc, w, now).Pass?
  {
    AcquireTells(s, inc, w, now);
    if AcquireCheck(s, inc, w, now).Fail? {
      AcquireRefused(s, inc, w, now);
    }
    if AdmissionClosed(s, inc) {
      ClosedToAcquire(s, inc, w, now);
    }
    hide Acquire, AcquireCheck;
  }

  /* ---- with the worker ---- */

  lemma Serves(n: Net, f: Frame)
    requires n.phase.Waiting? && n.toWorker == [f] && n.toRouter == [] && !n.released
    ensures WorkerStep(WorkerStep(WorkerStep(n, WorkerTake), WorkerWork), WorkerReply(true)) ==
            n.(toWorker := [], toRouter := [f], finished := n.finished + {f.ticket}, released := f.drain,
               phase := if f.drain then Phase.Stopped else Waiting)
  {
    assert [f][1..] == [] && [] + [f] == [f];
  }

  /** What the two channels are after the command went through. */
  function NetAfter(n: Net, c: Cmd): Net
  {
    n.(sent := n.sent + [FrameOf(c)], finished := n.finished + {c.ticket}, released := c.drain,
       phase := if c.drain then Phase.Stopped else Waiting)
  }

  /** A frame on its way. */
  function Sent(s: Sys, c: Cmd, sent: Pc): Sys
  {
    s.(net := s.net.(toWorker := [FrameOf(c)], sent := s.net.sent + [FrameOf(c)]), pc := sent)
  }

  lemma SendShape(s: Sys, inc: u64, now: u64, c: Cmd, sent: Pc)
    requires s.net.toWorker == []
    requires (exists u :: s.pc == SendExecute(c, u) && sent == AwaitExecute(c, u))
             || (s.pc == SendDrain(c) && sent == AwaitDrain(c))
    ensures DispatchStep(s, inc, true, now) == Sent(s, c, sent)
  {
    assert [] + [FrameOf(c)] == [FrameOf(c)];
  }

  lemma ReadShape(s: Sys, inc: u64, now: u64, c: Cmd, got: Pc)
    requires s.net.toRouter == [FrameOf(c)]
    requires (exists u :: s.pc == AwaitExecute(c, u) && got == Releasing(c, u))
             || (s.pc == AwaitDrain(c) && got == Acknowledging(c))
    ensures DispatchStep(s, inc, true, now) == s.(net := s.net.(toRouter := []), pc := got)
  {
    assert [FrameOf(c)][1..] == [];
  }

  /** The send, the worker's turn and the reply. */
  lemma RoundTrip(s: Sys, inc: u64, now: u64, c: Cmd, sent: Pc, got: Pc)
    requires s.net.phase.Waiting? && s.net.toWorker == [] && s.net.toRouter == [] && !s.net.released
    requires (exists u :: s.pc == SendExecute(c, u) && sent == AwaitExecute(c, u) && got == Releasing(c, u) && !c.drain)
             || (s.pc == SendDrain(c) && sent == AwaitDrain(c) && got == Acknowledging(c) && c.drain)
    ensures DispatchStep(WorkerTurn(DispatchStep(s, inc, true, now)), inc, true, now) ==
            s.(net := NetAfter(s.net, c), pc := got)
  {
    SendShape(s, inc, now, c, sent);
    Serves(Sent(s, c, sent).net, FrameOf(c));
    hide WorkerStep, DispatchStep;
    ReadShape(WorkerTurn(Sent(s, c, sent)), inc, now, c, got);
  }

  /* ---- EXECUTE ---- */

  /** What counts as fenced for a command: unknown, fenced by health or registration, lost or retired. */
  lemma FenceIsExact(s: State, id: u64)
    ensures IncarnationFenced(s, id) <==>
            (id in s.incarnations ==>
               var i := s.incarnations[id].state;
               i.health == FencedHealth || i.registration == FencedRegistration || i.lifecycle in {Lost, Retired})
  {
  }

  /** Ten dispatcher steps, with the worker's turn before the reply is read. */
  function ExecuteTurn(s: Sys, inc: u64, now: u64): Sys
  {
    Dispatched(WorkerTurn(Dispatched(s, inc, now, 7)), inc, now, 3)
  }

  /** What lets an EXECUTE through. */
  predicate Admissible(s: State, inc: u64, c: Cmd, now: u64)
  {
    UpToDate(s, c) && !IncarnationFenced(s, inc) && AcquireCheck(s, inc, c.wanted, now).Pass?
  }

  lemma FenceToSend(s: Sys, inc: u64, now: u64, c: Cmd)
    requires s.pc == CheckFence(c) && s.q.alive && s.q.items == []
    ensures var r := Acquire(s.rt, inc, c.wanted, now);
            Dispatched(s, inc, now, 4) ==
            if !IncarnationFenced(s.rt, inc) && r.1.Done?
            then DispatchStep(s.(rt := r.0, pc := SendExecute(c, r.1.id), mine := s.mine + {r.1.id}), inc, true, now)
            else AnsweredWith(s, c, false)
  {
    ExecuteOrder(s, inc, now, c, 4);
    var r := Acquire(s.rt, inc, c.wanted, now);
    hide Acquire, IncarnationFenced, AnsweredWith, DispatchStep;
    if !IncarnationFenced(s.rt, inc) && r.1.Done? {
      OneStep(s.(rt := r.0, pc := SendExecute(c, r.1.id), mine := s.mine + {r.1.id}), inc, now);
    }
    hide Dispatched;
  }

  /** The use was acquired; the frame comes next. */
  function Holding(s: Sys, inc: u64, c: Cmd, now: u64): Sys
    requires Acquire(s.rt, inc, c.wanted, now).1.Done?
  {
    var r := Acquire(s.rt, inc, c.wanted, now);
    s.(q := s.q.(items := []), rt := r.0, pc := SendExecute(c, r.1.id), mine := s.mine + {r.1.id})
  }

  lemma FromPop(s: Sys, inc: u64, now: u64, c: Cmd)
    requires Ready(s, c) && !c.drain
    ensures Dispatched(s, inc, now, 7) ==
            if UpToDate(s.rt, c)
            then Dispatched(s.(q := s.q.(items := []), pc := CheckFence(c)), inc, now, 4)
            else AnsweredWith(s, c, false)
  {
    var a := s.(q := s.q.(items := []), pc := CheckEpoch(c));
    Pops(s, inc, now, c);
    assert Dispatched(s, inc, now, 7) == Dispatched(a, inc, now, 6);
    hide Dispatched, DispatchStep, UpToDate;
    ChecksOrder(a, inc, now, c, 6);
  }

  lemma FirstSeven(s: Sys, inc: u64, now: u64, c: Cmd)
    requires Ready(s, c) && !c.drain
    ensures Acquire(s.rt, inc, c.wanted, now).1.Done? <==> AcquireCheck(s.rt, inc, c.wanted, now).Pass?
    ensures Dispatched(s, inc, now, 7) ==
            if Admissible(s.rt, inc, c, now) then DispatchStep(Holding(s, inc, c, now), inc, true, now)
            else AnsweredWith(s, c, false)
  {
    FromPop(s, inc, now, c);
    RefusedAlone(s.rt, inc, c.wanted, now);
    hide Dispatched, DispatchStep, Acquire, AcquireCheck, IncarnationFenced, AdmissionClosed, UpToDate;
    if UpToDate(s.rt, c) {
      FenceToSend(s.(q := s.q.(items := []), pc := CheckFence(c)), inc, now, c);
    }
  }

  lemma OneStep(s: Sys, inc: u64, now: u64)
    ensures Dispatched(s, inc, now, 1) == DispatchStep(s, inc, true, now)
  {
    assert Dispatched(s, inc, now, 1) == Dispatched(DispatchStep(s, inc, true, now), inc, now, 0);
  }

  /** The reply was read: the use is released as completed, and the promise kept. */
  lemma LastTwo(s: Sys, inc: u64, now: u64, c: Cmd, use: u64)
    requires s.pc == Releasing(c, use) && s.q.alive && s.q.items == []
    ensures Dispatched(s, inc, now, 2) ==
            AnsweredWith(s.(rt := Release(s.rt, use, inc, Closing(Completed, [], now)).0), c, true)
  {
    hide Release;
    var a := DispatchStep(s, inc, true, now);
    assert Dispatched(s, inc, now, 2) == Dispatched(a, inc, now, 1);
    Answers(a, inc, now, c, true, 1);
  }

  /** An EXECUTE that is the only command, with a worker that waits and nobody else acting: it is answered
      with success exactly when it names the present epoch and authority or none, the incarnation is not
      fenced, and the runtime admits a use. Then it was sent and its use is released as completed.
      Otherwise it is answered with a failure, nothing was sent, and the runtime is as it was. */
  lemma ExecuteLeftAlone(s: Sys, inc: u64, now: u64, c: Cmd)
    requires Ready(s, c) && !c.drain
    ensures var t := ExecuteTurn(s, inc, now); var r := Acquire(s.rt, inc, c.wanted, now);
            if Admissible(s.rt, inc, c, now)
            then r.1.Done? && t ==
                 AnsweredWith(s.(rt := Release(r.0, r.1.id, inc, Closing(Completed, [], now)).0,
                                 mine := s.mine + {r.1.id}, net := NetAfter(s.net, c)), c, true)
            else t == AnsweredWith(s, c, false)
  {
    FirstSeven(s, inc, now, c);
    var r := Acquire(s.rt, inc, c.wanted, now);
    if Admissible(s.rt, inc, c, now) {
      var b := Holding(s, inc, c, now);
      hide Acquire, AcquireCheck, IncarnationFenced, Admissible, Release;
      RoundTrip(b, inc, now, c, AwaitExecute(c, r.1.id), Releasing(c, r.1.id));
      var w := WorkerTurn(DispatchStep(b, inc, true, now));
      assert Dispatched(w, inc, now, 3) == Dispatched(DispatchStep(w, inc, true, now), inc, now, 2);
      LastTwo(b.(net := NetAfter(s.net, c), pc := Releasing(c, r.1.id)), inc, now, c, r.1.id);
      hide Dispatched, DispatchStep, WorkerTurn;
    } else {
      hide Acquire, AcquireCheck, IncarnationFenced, Admissible, Release;
      var a := AnsweredWith(s, c, false);
      WorkerIdles(a);
      Idles(a, inc, now, 3);
      hide Dispatched, WorkerTurn;
    }
  }

  /** What that leaves in the runtime: one more use, of this incarnation, released as completed; every other
      use as it was, and as many open uses as before. */
  lemma ExecutedUse(s: State, inc: u64, w: Wanted, now: u64)
    requires Keyed(s) && Accounted(s) && FreshUses(s, 1) && Acquire(s, inc, w, now).1.Done?
    ensures var u := Acquire(s, inc, w, now).1.id;
            var t := Release(Acquire(s, inc, w, now).0, u, inc, Closing(Completed, [], now)).0;
            && u !in s.activeUses && t.activeUses.Keys == s.activeUses.Keys + {u}
            && (forall v :: v in s.activeUses ==> t.activeUses[v] == s.activeUses[v])
            && t.activeUses[u].released && t.activeUses[u].outcome == Completed
            && t.activeUses[u].incarnationId == inc && t.activeUses[u].wanted == w
            && t.activeUses[u].admittedAtNs == now && t.activeUses[u].releasedAtNs == now
            && t.activeUseCount == s.activeUseCount
  {
    var u, a := Acquire(s, inc, w, now).1.id, Acquire(s, inc, w, now).0;
    hide KeepsAuthority, SameDefinitions, SameEvidence, SameDrains, KeepsClosed, KeepsFences, Continues, AddsNoCurrent,
      KeepsAttempts, SameActivations;
    NewUse(s, inc, w, now);
    hide Acquire, AcquireCheck, Accounted, Keyed;
    var c := Closing(Completed, [], now);
    ReleaseShape(a, u, inc, c);
    hide Release, ReleaseCheck;
  }

  lemma NewUse(s: State, inc: u64, w: Wanted, now: u64)
    requires Keyed(s) && Accounted(s) && FreshUses(s, 1) && Acquire(s, inc, w, now).1.Done?
    ensures var u, a := Acquire(s, inc, w, now).1.id, Acquire(s, inc, w, now).0;
            && inc in s.incarnations && s.incarnations[inc].incarnationId == inc
            && u !in s.activeUses && a.activeUses == s.activeUses[u := AdmitUse(s.incarnations[inc], w, now)]
            && a.activeUseCount == s.activeUseCount + 1 && ReleaseCheck(a, u, inc).Pass?
  {
    hide KeepsAuthority, SameDefinitions, SameEvidence, SameDrains, KeepsClosed, KeepsFences, Continues, AddsNoCurrent,
      KeepsAttempts, SameActivations;
    AcquireTells(s, inc, w, now);
    AcquireShape(s, inc, w, now);
    hide Acquire, AcquireCheck, Accounted;
  }

  /* ---- DRAIN ---- */

  function DrainTurn(s: Sys, inc: u64, now: u64): Sys
  {
    Dispatched(WorkerTurn(Dispatched(s, inc, now, 4)), inc, now, 3)
  }

  lemma LastTwoOfDrain(s: Sys, inc: u64, now: u64, c: Cmd)
    requires s.pc == Acknowledging(c) && s.q.alive && s.q.items == []
    ensures var r := AcknowledgeCleanup(s.rt, inc);
            Dispatched(s, inc, now, 2) == AnsweredWith(s.(rt := r.0), c, r.1.Done?)
  {
    hide AcknowledgeCleanup;
    var a := DispatchStep(s, inc, true, now);
    assert Dispatched(s, inc, now, 2) == Dispatched(a, inc, now, 1);
    Answers(a, inc, now, c, AcknowledgeCleanup(s.rt, inc).1.Done?, 1);
  }

  lemma FirstFour(s: Sys, inc: u64, now: u64, c: Cmd)
    requires Ready(s, c) && c.drain
    ensures Dispatched(s, inc, now, 4) ==
            if UpToDate(s.rt, c)
            then DispatchStep(s.(q := s.q.(items := []), pc := SendDrain(c)), inc, true, now)
            else AnsweredWith(s, c, false)
  {
    var a := s.(q := s.q.(items := []), pc := CheckEpoch(c));
    Pops(s, inc, now, c);
    assert Dispatched(s, inc, now, 4) == Dispatched(a, inc, now, 3);
    ChecksOrder(a, inc, now, c, 3);
    hide DispatchStep;
    if UpToDate(s.rt, c) {
      OneStep(a.(pc := SendDrain(c)), inc, now);
    }
    hide Dispatched;
  }

  /** A DRAIN that is the only command, likewise: with a stale epoch or authority it is answered with a
      failure and never sent; otherwise the worker releases its backend, and the answer is success exactly
      when the runtime knows of a drain, which it then marks as cleaned up. */
  lemma DrainLeftAlone(s: Sys, inc: u64, now: u64, c: Cmd)
    requires Ready(s, c) && c.drain
    ensures var t := DrainTurn(s, inc, now); var r := AcknowledgeCleanup(s.rt, inc);
            t == if UpToDate(s.rt, c) then AnsweredWith(s.(rt := r.0, net := NetAfter(s.net, c)), c, r.1.Done?)
                 else AnsweredWith(s, c, false)
    ensures AcknowledgeCleanup(s.rt, inc).1.Done? <==> inc in s.rt.drains
  {
    FirstFour(s, inc, now, c);
    hide AcknowledgeCleanup;
    if UpToDate(s.rt, c) {
      var b := s.(q := s.q.(items := []), pc := SendDrain(c));
      RoundTrip(b, inc, now, c, AwaitDrain(c), Acknowledging(c));
      var w := WorkerTurn(DispatchStep(b, inc, true, now));
      assert Dispatched(w, inc, now, 3) == Dispatched(DispatchStep(w, inc, true, now), inc, now, 2);
      LastTwoOfDrain(b.(net := NetAfter(s.net, c), pc := Acknowledging(c)), inc, now, c);
    } else {
      var a := AnsweredWith(s, c, false);
      WorkerIdles(a);
      Idles(a, inc, now, 3);
    }
    hide Dispatched, DispatchStep, WorkerTurn;
    AcknowledgementTells(s.rt, inc);
  }

  lemma AcknowledgementTells(s: State, inc: u64)
    ensures AcknowledgeCleanup(s, inc).1.Done? <==> inc in s.drains
  {
    hide Remaining, AfterAcknowledgement, SameUses, SameEvidence, KeepsFences, Continues, KeepsClosed, AddsNoCurrent,
      KeepsAttempts, SameActivations;
  }

  /* ---- a transfer that fails ---- */

  /** The dispatcher loses the worker during an EXECUTE. */
  function WorkerLost(s: Sys, inc: u64, now: u64): Sys
  {
    DispatchStep(DispatchStep(s, inc, false, now), inc, true, now)
  }

  /** The two steps of losing it: the use is released as failed. */
  lemma LosesUse(s: Sys, inc: u64, now: u64, c: Cmd, use: u64)
    requires s.pc == SendExecute(c, use) || s.pc == AwaitExecute(c, use)
    ensures WorkerLost(s, inc, now) ==
            s.(rt := Release(s.rt, use, inc, Closing(WorkFailed, [], now)).0, pc := FailStore(Some(c)))
  {
    hide Release;
  }

  /** A send or receive that fails during an EXECUTE, with nobody else acting: its use is released as failed,
      the router is dead, everything queued and the command itself are answered with a failure, and nothing
      more is sent. */
  lemma FailureLeftAlone(s: Sys, inc: u64, now: u64, c: Cmd, use: u64)
    requires (s.pc == SendExecute(c, use) || s.pc == AwaitExecute(c, use)) && s.q.holder.None?
    ensures W.Steps(WorkerLost(s, inc, now), inc, |s.q.items| + 5) ==
            s.(rt := Release(s.rt, use, inc, Closing(WorkFailed, [], now)).0,
               q := Settle(W.FailedQueue(s.q), c, false), pc := LoopHead)
  {
    LosesUse(s, inc, now, c, use);
    hide WorkerLost, Release;
    var a := WorkerLost(s, inc, now);
    W.FailSteps(a, inc);
    W.StepsThen(a, inc, |s.q.items| + 4, 1);
    SettlesOne(a.(q := W.FailedQueue(s.q), pc := Settling(c, false)), inc);
    hide W.Steps, W.FailedQueue;
  }

  lemma SettlesOne(s: Sys, inc: u64)
    requires s.pc.Settling?
    ensures W.Steps(s, inc, 1) == s.(q := Settle(s.q, s.pc.cmd, s.pc.ok), pc := LoopHead)
  {
    assert W.Steps(s, inc, 1) == W.Steps(DispatchStep(s, inc, true, 0), inc, 0);
  }
}
