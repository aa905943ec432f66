/** The class WorkerRouter of session.hpp and the command loop of the worker, each run without
    interference, and tied to the steps of the interleaved machine. */
module WorkerRouters {
  import opened Prelude
  import opened Records
  import opened RuntimeState
  import opened RuntimeRuns
  import opened Router

  /** fail answers every command of a swapped-out queue. */
  function SettleAll(q: Queue, cs: seq<Cmd>): Queue
    decreases |cs|
  {
    if cs == [] then q else SettleAll(Settle(q, cs[0], false), cs[1..])
  }

  /** All of enqueue, when nothing comes between its check and its push. */
  function Entered(q: Queue, c: Cmd): Queue
    requires q.holder.None?
  {
    var t := TryEnter(q, c);
    if t.holder.Some? then Push(t) else t
  }

  function FailedQueue(q: Queue): Queue
  {
    SettleAll(q.(alive := false, items := []), q.items)
  }

  class WorkerRouter {
    var queue: seq<Cmd>
    var ready: bool
    var alive: bool
    // The promises: tickets handed out, and how each was fulfilled.
    var issued: nat
    var rejected: set<nat>
    var accepted: set<nat>
    var settled: seq<nat>
    var succeeded: set<nat>

    function View(): Queue
      reads this
    {
      Queue(queue, None, ready, alive, issued, rejected, accepted, settled, succeeded)
    }

    constructor ()
      ensures View() == Queue([], None, false, true, 0, {}, {}, [], {})
    {
      queue, ready, alive := [], false, true;
      issued, rejected, accepted, settled, succeeded := 0, {}, {}, [], {};
    }

    /** A refused command is answered at once with an error. */
    method Enqueue(drain: bool, cmdId: u64, epoch: u64, authority: u64, wanted: Wanted) returns (taken: bool)
      modifies this
      ensures View() == Entered(old(View()), Cmd(old(issued), drain, cmdId, epoch, authority, wanted))
      ensures taken <==> old(ready && alive && |queue| < MAX_QUEUE)
    {
      var c := Cmd(issued, drain, cmdId, epoch, authority, wanted);
      issued := issued + 1;
      taken := false;
      if ready && alive && |queue| < 64 {
        queue := queue + [c];
        accepted := accepted + {c.ticket};
        taken := true;
      }
      if !taken {
        rejected := rejected + {c.ticket};
      }
    }

    /** The critical section of the dispatcher loop. */
    method TakeFront() returns (c: Cmd)
      requires queue != []
      modifies `queue
      ensures View() == Pop(old(View())) && c == old(queue)[0]
    {
      c := queue[0];
      queue := queue[1..];
    }

    method Answer(c: Cmd, ok: bool)
      modifies `settled, `succeeded
      ensures View() == Settle(old(View()), c, ok)
    {
      settled := settled + [c.ticket];
      if ok {
        succeeded := succeeded + {c.ticket};
      }
    }

    /** alive_ is cleared first; then the queue is swapped out and each promise gets an error. */
    method Fail()
      modifies `alive, `queue, `settled, `succeeded
      ensures View() == FailedQueue(old(View()))
    {
      alive := false;
      var q := queue;
      queue := [];
      ghost var start := View();
      for i := 0 to |q|
        invariant SettleAll(View(), q[i..]) == SettleAll(start, q)
        invariant View() == start.(settled := settled, succeeded := succeeded)
      {
        assert q[i..][1..] == q[i + 1..];
        Answer(q[i], false);
      }
      assert q[|q|..] == [];
    }
  }

  /* ---- the same as steps of the machine ---- */

  /** n dispatcher steps in a row. */
  function Steps(s: Sys, inc: u64, n: nat): Sys
    decreases n
  {
    if n == 0 then s else Steps(DispatchStep(s, inc, true, 0), inc, n - 1)
  }

  lemma {:induction false} SettleSteps(s: Sys, inc: u64)
    requires s.pc.FailSettle?
    ensures Steps(s, inc, |s.pc.rest| + 1) ==
            s.(q := SettleAll(s.q, s.pc.rest), pc := FailClose(s.pc.after))
    decreases |s.pc.rest|
  {
    if s.pc.rest == [] {
      var t := DispatchStep(s, inc, true, 0);
      assert Steps(t, inc, 0) == t;
    } else {
      SettleSteps(DispatchStep(s, inc, true, 0), inc);
    }
  }

  /** Left alone, the dispatcher's failure path does what the method Fail does. */
  lemma FailSteps(s: Sys, inc: u64)
    requires s.pc.FailStore? && s.q.holder.None?
    ensures Steps(s, inc, |s.q.items| + 4) == s.(q := FailedQueue(s.q), pc := AfterFail(s.pc.after))
  {
    StoreAndSwap(s, inc);
    var b := s.(q := s.q.(alive := false, items := []), pc := FailSettle(s.pc.after, s.q.items));
    SettleSteps(b, inc);
    CloseLast(b.(q := SettleAll(b.q, s.q.items), pc := FailClose(s.pc.after)), inc);
    StepsThen(s, inc, 2, |s.q.items| + 2);
    StepsThen(b, inc, |s.q.items| + 1, 1);
    hide Steps, SettleAll;
  }

  lemma StoreAndSwap(s: Sys, inc: u64)
    requires s.pc.FailStore? && s.q.holder.None?
    ensures Steps(s, inc, 2) == s.(q := s.q.(alive := false, items := []), pc := FailSettle(s.pc.after, s.q.items))
  {
    var a := DispatchStep(s, inc, true, 0);
    assert Steps(s, inc, 2) == Steps(a, inc, 1) == Steps(DispatchStep(a, inc, true, 0), inc, 0);
  }

  lemma CloseLast(s: Sys, inc: u64)
    requires s.pc.FailClose?
    ensures Steps(s, inc, 1) == s.(pc := AfterFail(s.pc.after))
  {
    assert Steps(s, inc, 1) == Steps(DispatchStep(s, inc, true, 0), inc, 0);
  }

  lemma {:induction false} StepsThen(s: Sys, inc: u64, m: nat, n: nat)
    ensures Steps(s, inc, m + n) == Steps(Steps(s, inc, m), inc, n)
    decreases m
  {
    hide DispatchStep;
    if m > 0 {
      StepsThen(DispatchStep(s, inc, true, 0), inc, m - 1, n);
    }
  }

  /* ---- the worker ---- */

  /** The commands that the loop serves: all up to and including the first drain. */
  function Served(fs: seq<Frame>): seq<Frame>
  {
    if fs == [] then [] else if fs[0].drain then [fs[0]] else [fs[0]] + Served(fs[1..])
  }

  /** What can arrive in command mode; the router sends commands only. */
  datatype Incoming = Command(frame: Frame) | Shutdown | Other {
    predicate Ends() { Shutdown? || Drains() }

    predicate Drains() { Command? && frame.drain }
  }

  datatype Reply = Answer(frame: Frame) | Unhandled

  /** The first message that ends the loop, or the number of messages. */
  function EndOf(ms: seq<Incoming>): (n: nat)
    ensures n <= |ms| && (n < |ms| ==> ms[n].Ends()) && forall k :: 0 <= k < n ==> !ms[k].Ends()
  {
    if ms == [] || ms[0].Ends() then 0 else 1 + EndOf(ms[1..])
  }

  function ReplyTo(m: Incoming): seq<Reply>
  {
    match m
    case Command(f) => [Answer(f)]
    case Shutdown => []
    case Other => [Unhandled]
  }

  function RepliesTo(ms: seq<Incoming>): seq<Reply>
  {
    if ms == [] then [] else RepliesTo(ms[..|ms| - 1]) + ReplyTo(ms[|ms| - 1])
  }

  lemma EndsAt(ms: seq<Incoming>, n: nat)
    requires n <= |ms| && (n < |ms| ==> ms[n].Ends()) && forall k :: 0 <= k < n ==> !ms[k].Ends()
    ensures EndOf(ms) == n
  {
  }

  ghost predicate DrainedBeforeShutdown(ms: seq<Incoming>)
  {
    exists i :: 0 <= i < |ms| && ms[i].Drains() && forall k :: 0 <= k < i ==> !ms[k].Shutdown?
  }

  /** What the loop sends. */
  function LoopReplies(ms: seq<Incoming>): seq<Reply>
  {
    var n := EndOf(ms);
    RepliesTo(ms[..n]) + if n < |ms| && ms[n].Drains() then [Answer(ms[n].frame)] else []
  }

  /** The command loop on the messages that arrive before the connection ends: one reply each, in order,
      up to and including a drain, or up to a shutdown; the backend is released by the drain, or after
      the loop. */
  method CommandLoop(incoming: seq<Incoming>) returns (replies: seq<Reply>, released: bool, drained: bool)
    ensures replies == LoopReplies(incoming) && released
    ensures drained <==> DrainedBeforeShutdown(incoming)
  {
    replies, released, drained := [], false, false;
    var i := 0;
    while i < |incoming|
      invariant i <= |incoming| && !drained && !released
      invariant replies == RepliesTo(incoming[..i])
      invariant forall k :: 0 <= k < i ==> !incoming[k].Ends()
    {
      var m := incoming[i];
      assert incoming[..i + 1][..i] == incoming[..i];
      if m.Command? && !m.frame.drain {
        replies := replies + [Answer(m.frame)];
      } else if m.Command? {
        released := true;
        replies := replies + [Answer(m.frame)];
        drained := true;
        break;
      } else if m.Shutdown? {
        break;
      } else {
        replies := replies + [Unhandled];
      }
      i := i + 1;
    }
    EndsAt(incoming, i);
    if !drained {
      released := true;
    }
  }

  function Commands(fs: seq<Frame>): seq<Incoming>
  {
    seq(|fs|, i requires 0 <= i < |fs| => Command(fs[i]))
  }

  function Answers(fs: seq<Frame>): seq<Reply>
  {
    seq(|fs|, i requires 0 <= i < |fs| => Answer(fs[i]))
  }

  lemma LoopStep(ms: seq<Incoming>)
    requires ms != [] && !ms[0].Ends()
    ensures LoopReplies(ms) == ReplyTo(ms[0]) + LoopReplies(ms[1..])
  {
    var n := EndOf(ms);
    RepliesFrom(ms[..n]);
    assert ms[..n][1..] == ms[1..][..n - 1];
    hide RepliesTo, ReplyTo;
  }

  /** On the commands of the router alone, the loop answers those served, in order. */
  lemma {:induction false} LoopServes(fs: seq<Frame>)
    ensures LoopReplies(Commands(fs)) == Answers(Served(fs))
    decreases |fs|
  {
    if fs == [] {
      assert EndOf(Commands(fs)) == 0;
    } else if fs[0].drain {
      assert EndOf(Commands(fs)) == 0;
    } else {
      assert Commands(fs)[1..] == Commands(fs[1..]);
      LoopServes(fs[1..]);
      LoopStep(Commands(fs));
      hide LoopReplies;
      assert Answers([fs[0]] + Served(fs[1..])) == [Answer(fs[0])] + Answers(Served(fs[1..]));
    }
  }

  lemma {:induction false} RepliesFrom(ms: seq<Incoming>)
    requires ms != []
    ensures RepliesTo(ms) == ReplyTo(ms[0]) + RepliesTo(ms[1..])
    decreases |ms|
  {
    var n := |ms| - 1;
    if n > 0 {
      RepliesFrom(ms[..n]);
      assert ms[..n][1..] == ms[1..][..n - 1];
      hide ReplyTo;
    }
  }

  /** One pass of the loop as steps of the machine: the frame is served and answered. */
  lemma LoopPass(n: Net)
    requires n.phase.Waiting? && n.toWorker != []
    ensures var f := n.toWorker[0];
            WorkerStep(WorkerStep(WorkerStep(n, WorkerTake), WorkerWork), WorkerReply(true)) ==
            n.(toWorker := n.toWorker[1..], toRouter := n.toRouter + [f], finished := n.finished + {f.ticket},
               released := n.released || f.drain, phase := if f.drain then Phase.Stopped else Waiting)
  {
  }

  /** The machine's worker, fed with frames and left alone, answers exactly what the loop answers. */
  function ServeAll(n: Net): Net
    decreases |n.toWorker|
  {
    if !n.phase.Waiting? || n.toWorker == [] then n
    else ServeAll(WorkerStep(WorkerStep(WorkerStep(n, WorkerTake), WorkerWork), WorkerReply(true)))
  }

  lemma {:induction false} MachineServes(n: Net)
    requires n.phase.Waiting?
    ensures ServeAll(n).toRouter == n.toRouter + Served(n.toWorker)
    decreases |n.toWorker|
  {
    if n.toWorker != [] {
      LoopPass(n);
      var m := WorkerStep(WorkerStep(WorkerStep(n, WorkerTake), WorkerWork), WorkerReply(true));
      hide WorkerStep;
      if m.phase.Waiting? {
        MachineServes(m);
        assert n.toRouter + [n.toWorker[0]] + Served(m.toWorker) == n.toRouter + ([n.toWorker[0]] + Served(m.toWorker));
      }
    }
  }
}
