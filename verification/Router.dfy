/** The worker command router of session.cpp, interleaved with the controllers that enqueue commands,
    with everything else that calls the runtime, and with the command loop of worker_main.cpp.

    One action is one step that other threads cannot split: a critical section of the queue lock (in
    two halves, so that the unlocked store to alive_ can fall between the check and the push of
    enqueue), one call of the runtime, one send, one receive, one promise. */
module Router {
  import opened Prelude
  import opened Errors
  import opened Records
  import opened RuntimeState
  import opened RuntimeRuns

  const MAX_QUEUE: nat := 64

  /** A routed command. `ticket` is the identity of its promise; the program never sends it. `wanted` is
      what acquire_use_for makes of the parameters: profile 1 and the generations they name. */
  datatype Cmd = Cmd(ticket: nat, drain: bool, cmdId: u64, epoch: u64, authority: u64, wanted: Wanted)

  /** A command frame or the worker's reply to one. */
  datatype Frame = Frame(drain: bool, cmdId: u64, ticket: nat)

  function FrameOf(c: Cmd): Frame
  {
    Frame(c.drain, c.cmdId, c.ticket)
  }

  /** The fields under the queue lock, the two atomics, and the history of promises. `holder` is the
      command of a controller that holds the lock and has passed the check of enqueue. */
  datatype Queue = Queue(
    items: seq<Cmd>, holder: Option<Cmd>, ready: bool, alive: bool,
    issued: nat, rejected: set<nat>, accepted: set<nat>, settled: seq<nat>, succeeded: set<nat>)

  /** Where the dispatcher thread is. */
  datatype Pc =
    | Starting
    | LoopHead
    | CheckEpoch(cmd: Cmd) | CheckAuthority(cmd: Cmd) | CheckFence(cmd: Cmd) | CheckDrain(cmd: Cmd)
    | Acquiring(cmd: Cmd)
    | SendExecute(cmd: Cmd, use: u64) | AwaitExecute(cmd: Cmd, use: u64)
    | Releasing(cmd: Cmd, use: u64) | ReleasingFailed(cmd: Cmd, use: u64)
    | SendDrain(cmd: Cmd) | AwaitDrain(cmd: Cmd) | Acknowledging(cmd: Cmd)
    | FailStore(after: Option<Cmd>) | FailSwap(after: Option<Cmd>)
    | FailSettle(after: Option<Cmd>, rest: seq<Cmd>) | FailClose(after: Option<Cmd>)
    | Settling(cmd: Cmd, ok: bool)
    | Exited

  datatype Phase = Waiting | Busy(frame: Frame) | Replying(frame: Frame) | Stopped

  /** The two FIFO channels, the worker, and what was ever sent to it. */
  datatype Net = Net(
    toWorker: seq<Frame>, toRouter: seq<Frame>, phase: Phase, released: bool, finished: set<nat>, sent: seq<Frame>)

  /** `drainers` counts controllers between a successful request_drain and their enqueue; `mine` are
      the serving uses that the dispatcher acquired. */
  datatype Sys = Sys(rt: State, q: Queue, pc: Pc, net: Net, drainers: nat, mine: set<u64>)

  datatype Act =
    | RuntimeCall(op: Op)                                                      // any other caller of the runtime
    | RequestDrainFirst                                                        // route_drain, its runtime call
    | EnqueueCheck(drain: bool, cmdId: u64, epoch: u64, authority: u64, wanted: Wanted)
    | EnqueuePush
    | Dispatch(ok: bool, now: u64)                                             // ok: a send or receive succeeds
    | WorkerTake | WorkerWork | WorkerReply(sent: bool) | WorkerStop

  /* ---- the queue ---- */

  /** First half of enqueue: a refused command is answered on the spot. */
  function TryEnter(q: Queue, c: Cmd): Queue
  {
    if q.ready && q.alive && |q.items| < MAX_QUEUE
    then q.(holder := Some(c), issued := q.issued + 1)
    else q.(issued := q.issued + 1, rejected := q.rejected + {c.ticket})
  }

  function Push(q: Queue): Queue
    requires q.holder.Some?
  {
    q.(items := q.items + [q.holder.value], holder := None, accepted := q.accepted + {q.holder.value.ticket})
  }

  function Pop(q: Queue): Queue
    requires q.items != []
  {
    q.(items := q.items[1..])
  }

  function Settle(q: Queue, c: Cmd, ok: bool): Queue
  {
    q.(settled := q.settled + [c.ticket], succeeded := if ok then q.succeeded + {c.ticket} else q.succeeded)
  }

  /* ---- the dispatcher ---- */

  function AfterFail(after: Option<Cmd>): Pc
  {
    match after
    case None => Exited
    case Some(c) => Settling(c, false)
  }

  predicate IncarnationFenced(s: State, id: u64)
  {
    id !in s.incarnations || Fenced(s.incarnations[id]) || s.incarnations[id].state.lifecycle.Lost?
    || s.incarnations[id].state.lifecycle.Retired?
  }

  /** The steps of process that end in a check. */
  function CheckStep(s: Sys, inc: u64): Pc
    requires s.pc.CheckEpoch? || s.pc.CheckAuthority? || s.pc.CheckFence? || s.pc.CheckDrain?
  {
    match s.pc
    case CheckEpoch(c) => if c.epoch != 0 && c.epoch != s.rt.epoch then Settling(c, false) else CheckAuthority(c)
    case CheckAuthority(c) =>
      if c.authority != 0 && c.authority != s.rt.authority then Settling(c, false)
      else if c.drain then SendDrain(c) else CheckFence(c)
    case CheckFence(c) => if IncarnationFenced(s.rt, inc) then Settling(c, false) else CheckDrain(c)
    case CheckDrain(c) => if AdmissionClosed(s.rt, inc) then Settling(c, false) else Acquiring(c)
  }

  function SendStep(s: Sys, c: Cmd, ok: bool, sent: Pc, failed: Pc): Sys
  {
    var f := FrameOf(c);
    if ok then s.(net := s.net.(toWorker := s.net.toWorker + [f], sent := s.net.sent + [f]), pc := sent)
    else s.(pc := failed)
  }

  /** A receive that fails, succeeds, or still waits. The frame that is read is not looked at. */
  function ReceiveStep(s: Sys, ok: bool, got: Pc, failed: Pc): Sys
  {
    if !ok then s.(pc := failed)
    else if s.net.toRouter == [] then s
    else s.(net := s.net.(toRouter := s.net.toRouter[1..]), pc := got)
  }

  /** How process closes the use it acquired; the explaining text is left out. */
  function ClosingOf(pc: Pc, now: u64): Closing
  {
    Closing(if pc.Releasing? then Completed else WorkFailed, [], now)
  }

  function AcquireStep(s: Sys, inc: u64, c: Cmd, now: u64): Sys
  {
    var r := Acquire(s.rt, inc, c.wanted, now);
    match r.1
    case Done(use) => s.(rt := r.0, pc := SendExecute(c, use), mine := s.mine + {use})
    case Threw(_) => s.(rt := r.0, pc := Settling(c, false))
  }

  function DispatchStep(s: Sys, inc: u64, ok: bool, now: u64): Sys
  {
    match s.pc
    case Starting => if s.q.holder.Some? then s else s.(q := s.q.(ready := true), pc := LoopHead)
    case LoopHead =>
      if !s.q.alive then s.(pc := FailStore(None))
      else if s.q.holder.Some? || s.q.items == [] then s
      else s.(q := Pop(s.q), pc := CheckEpoch(s.q.items[0]))
    case CheckEpoch(_) => s.(pc := CheckStep(s, inc))
    case CheckAuthority(_) => s.(pc := CheckStep(s, inc))
    case CheckFence(_) => s.(pc := CheckStep(s, inc))
    case CheckDrain(_) => s.(pc := CheckStep(s, inc))
    case Acquiring(c) => AcquireStep(s, inc, c, now)
    case SendExecute(c, use) => SendStep(s, c, ok, AwaitExecute(c, use), ReleasingFailed(c, use))
    case AwaitExecute(c, use) => ReceiveStep(s, ok, Releasing(c, use), ReleasingFailed(c, use))
    case Releasing(c, use) => s.(rt := Release(s.rt, use, inc, ClosingOf(s.pc, now)).0, pc := Settling(c, true))
    case ReleasingFailed(c, use) =>
      s.(rt := Release(s.rt, use, inc, ClosingOf(s.pc, now)).0, pc := FailStore(Some(c)))
    case SendDrain(c) => SendStep(s, c, ok, AwaitDrain(c), FailStore(Some(c)))
    case AwaitDrain(c) => ReceiveStep(s, ok, Acknowledging(c), FailStore(Some(c)))
    case Acknowledging(c) =>
      var r := AcknowledgeCleanup(s.rt, inc);
      s.(rt := r.0, pc := Settling(c, r.1.Done?))
    case FailStore(after) => s.(q := s.q.(alive := false), pc := FailSwap(after))
    case FailSwap(after) =>
      if s.q.holder.Some? then s else s.(q := s.q.(items := []), pc := FailSettle(after, s.q.items))
    case FailSettle(after, rest) =>
      if rest == [] then s.(pc := FailClose(after))
      else s.(q := Settle(s.q, rest[0], false), pc := FailSettle(after, rest[1..]))
    case FailClose(after) => s.(pc := AfterFail(after))
    case Settling(c, ok') => s.(q := Settle(s.q, c, ok'), pc := LoopHead)
    case Exited => s
  }

  /* ---- the worker's command loop ---- */

  function WorkerStep(n: Net, a: Act): Net
  {
    match a
    case WorkerTake =>
      if n.phase.Waiting? && n.toWorker != [] then n.(toWorker := n.toWorker[1..], phase := Busy(n.toWorker[0])) else n
    case WorkerWork =>
      if n.phase.Busy? then
        n.(phase := Replying(n.phase.frame), released := n.released || n.phase.frame.drain,
           finished := n.finished + {n.phase.frame.ticket})
      else n
    case WorkerReply(sent) =>
      if n.phase.Replying? then
        n.(phase := if n.phase.frame.drain then Phase.Stopped else Waiting,
           toRouter := if sent then n.toRouter + [n.phase.frame] else n.toRouter)
      else n
    case WorkerStop => n.(phase := Phase.Stopped, released := true)
    case _ => n
  }

  /* ---- one action ---- */

  ghost function Next(s: Sys, inc: u64, a: Act): Sys
  {
    match a
    case RuntimeCall(op) => if op.OpLoad? then s else s.(rt := Step(s.rt, op).0)
    case RequestDrainFirst =>
      var r := RequestDrain(s.rt, inc);
      if r.1.Done? then s.(rt := r.0, drainers := s.drainers + 1) else s.(rt := r.0)
    case EnqueueCheck(drain, cmdId, epoch, authority, wanted) =>
      if s.q.holder.Some? || (drain && s.drainers == 0) then s
      else
        s.(q := TryEnter(s.q, Cmd(s.q.issued, drain, cmdId, epoch, authority, wanted)),
           drainers := if drain then s.drainers - 1 else s.drainers)
    case EnqueuePush => if s.q.holder.Some? then s.(q := Push(s.q)) else s
    case Dispatch(ok, now) => DispatchStep(s, inc, ok, now)
    case _ => s.(net := WorkerStep(s.net, a))
  }

  ghost function Runs(s: Sys, inc: u64, acts: seq<Act>): Sys
    decreases |acts|
  {
    if acts == [] then s else Runs(Next(s, inc, acts[0]), inc, acts[1..])
  }

  /** A router that was just created and adopted its socket. */
  ghost predicate Fresh(s: Sys)
  {
    && s.q == Queue([], None, false, true, 0, {}, {}, [], {})
    && s.pc == Pc.Starting && s.net == Net([], [], Waiting, false, {}, []) && s.drainers == 0 && s.mine == {}
  }
}
