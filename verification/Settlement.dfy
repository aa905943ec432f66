/** Promises of routed commands: each is fulfilled exactly once (session.cpp:120-216). */
module Settlement {
  import opened Prelude
  import opened Records
  import opened RuntimeState
  import opened RuntimeRuns
  import opened Router

  function Tickets(cs: seq<Cmd>): seq<nat>
  {
    seq(|cs|, i requires 0 <= i < |cs| => cs[i].ticket)
  }

  function AfterTicket(after: Option<Cmd>): seq<nat>
  {
    match after
    case None => []
    case Some(c) => [c.ticket]
  }

  /** The commands that the dispatcher has taken off the queue and not yet answered. */
  function InFlight(pc: Pc): seq<nat>
  {
    match pc
    case Starting => []
    case LoopHead => []
    case CheckEpoch(c) => [c.ticket]
    case CheckAuthority(c) => [c.ticket]
    case CheckFence(c) => [c.ticket]
    case CheckDrain(c) => [c.ticket]
    case Acquiring(c) => [c.ticket]
    case SendExecute(c, _) => [c.ticket]
    case AwaitExecute(c, _) => [c.ticket]
    case Releasing(c, _) => [c.ticket]
    case ReleasingFailed(c, _) => [c.ticket]
    case SendDrain(c) => [c.ticket]
    case AwaitDrain(c) => [c.ticket]
    case Acknowledging(c) => [c.ticket]
    case FailStore(after) => AfterTicket(after)
    case FailSwap(after) => AfterTicket(after)
    case FailSettle(after, rest) => AfterTicket(after) + Tickets(rest)
    case FailClose(after) => AfterTicket(after)
    case Settling(c, _) => [c.ticket]
    case Exited => []
  }

  /** Accepted commands are, each exactly once, settled, in flight or queued. */
  ghost predicate Conserved(q: Queue, flight: seq<nat>)
  {
    multiset(q.settled) + multiset(flight) + multiset(Tickets(q.items)) == multiset(q.accepted)
  }

  /** Every ticket issued is rejected, accepted, or held by the controller inside the lock. */
  ghost predicate Partitioned(q: Queue)
  {
    && q.rejected !! q.accepted
    && (q.holder.Some? ==> q.holder.value.ticket !in q.rejected + q.accepted)
    && forall t: nat :: t < q.issued <==>
         t in q.rejected || t in q.accepted || (q.holder.Some? && q.holder.value.ticket == t)
  }

  /** The queue is bounded; and once alive_ is false nothing is queued or about to be, except until
      the swap has run. */
  ghost predicate Closing(q: Queue, pc: Pc)
  {
    && |q.items| <= MAX_QUEUE && (q.holder.Some? ==> |q.items| < MAX_QUEUE)
    && (pc.Starting? ==> !q.ready && q.items == [] && q.holder == None)
    && (!q.alive ==> pc.FailSwap? || (q.items == [] && q.holder == None))
    && (pc.FailSwap? || pc.FailSettle? || pc.FailClose? || pc.Exited? ==> !q.alive)
  }

  ghost predicate Settles(s: Sys)
  {
    Conserved(s.q, InFlight(s.pc)) && Partitioned(s.q) && Closing(s.q, s.pc)
  }

  lemma FreshSettles(s: Sys)
    requires Fresh(s)
    ensures Settles(s)
  {
  }

  lemma TicketsOfNone()
    ensures Tickets([]) == []
  {
  }

  lemma TicketsHead(cs: seq<Cmd>)
    requires cs != []
    ensures Tickets(cs) == [cs[0].ticket] + Tickets(cs[1..])
  {
  }

  lemma TicketsLast(cs: seq<Cmd>, c: Cmd)
    ensures Tickets(cs + [c]) == Tickets(cs) + [c.ticket]
  {
  }

  lemma PushSettles(q: Queue, flight: seq<nat>)
    requires Conserved(q, flight) && Partitioned(q) && q.holder.Some?
    ensures Conserved(Push(q), flight) && Partitioned(Push(q))
  {
    var c := q.holder.value;
    TicketsLast(q.items, c);
    hide Tickets;
    assert multiset(q.accepted + {c.ticket}) == multiset(q.accepted) + multiset{c.ticket};
  }

  lemma EnterSettles(q: Queue, c: Cmd, flight: seq<nat>)
    requires Conserved(q, flight) && Partitioned(q) && q.holder.None? && c.ticket == q.issued
    ensures Conserved(TryEnter(q, c), flight) && Partitioned(TryEnter(q, c))
  {
    hide Tickets;
  }

  lemma ControllerSettles(s: Sys, inc: u64, a: Act)
    requires Settles(s) && (a.EnqueueCheck? || a.EnqueuePush?)
    ensures Settles(Next(s, inc, a))
  {
    hide Tickets, InFlight, Conserved, Partitioned;
    if a.EnqueuePush? {
      if s.q.holder.Some? {
        PushSettles(s.q, InFlight(s.pc));
      }
    } else if s.q.holder.None? {
      EnterSettles(s.q, Cmd(s.q.issued, a.drain, a.cmdId, a.epoch, a.authority, a.wanted), InFlight(s.pc));
    }
  }

  lemma PopSettles(q: Queue)
    requires Conserved(q, []) && q.items != []
    ensures Conserved(Pop(q), [q.items[0].ticket])
  {
    TicketsHead(q.items);
    hide Tickets;
  }

  lemma SwapSettles(q: Queue, flight: seq<nat>)
    requires Conserved(q, flight)
    ensures Conserved(q.(items := []), flight + Tickets(q.items))
  {
    TicketsOfNone();
    hide Tickets;
  }

  lemma FailureSettles(q: Queue, flight: seq<nat>, rest: seq<Cmd>)
    requires Conserved(q, flight + Tickets(rest))
    ensures rest == [] ==> Conserved(q, flight)
    ensures rest != [] ==> Conserved(Settle(q, rest[0], false), flight + Tickets(rest[1..]))
  {
    TicketsOfNone();
    if rest == [] {
      assert flight + [] == flight;
    } else {
      TicketsHead(rest);
      hide Tickets;
      assert multiset(flight + Tickets(rest)) ==
             multiset(flight) + multiset([rest[0].ticket]) + multiset(Tickets(rest[1..]));
    }
  }

  lemma SettlingSettles(q: Queue, c: Cmd, ok: bool)
    requires Conserved(q, [c.ticket])
    ensures Conserved(Settle(q, c, ok), [])
  {
    hide Tickets;
  }

  /** The dispatcher steps that move a command on without touching the queue or a promise. */
  predicate MovesOn(pc: Pc)
  {
    !pc.LoopHead? && !pc.FailSwap? && !pc.FailSettle? && !pc.Settling?
  }

  predicate MovedOn(s: Sys, t: Sys)
  {
    && InFlight(t.pc) == InFlight(s.pc)
    && t.q == s.q.(ready := t.q.ready, alive := t.q.alive)
    && (s.q.ready ==> t.q.ready) && t.q.alive == (s.q.alive && !s.pc.FailStore?)
    && (t.pc.FailSwap? || t.pc.FailSettle? || t.pc.Exited? || t.pc.FailClose? ==>
          s.pc.FailStore? || s.pc.FailClose? || s.pc.Exited?)
    && (s.pc.FailStore? ==> t.pc.FailSwap?) && (t.pc.Starting? ==> t == s)
  }

  lemma EdgesMoveOn(s: Sys, inc: u64, ok: bool, now: u64)
    requires s.pc.Starting? || s.pc.FailStore? || s.pc.FailClose? || s.pc.Exited?
    ensures MovedOn(s, DispatchStep(s, inc, ok, now))
  {
    hide Acquire, Release, AcknowledgeCleanup, Tickets, CheckStep;
  }

  lemma ChecksMoveOn(s: Sys, inc: u64, ok: bool, now: u64)
    requires s.pc.CheckEpoch? || s.pc.CheckAuthority? || s.pc.CheckFence? || s.pc.CheckDrain?
    ensures MovedOn(s, DispatchStep(s, inc, ok, now))
  {
    hide Acquire, Release, AcknowledgeCleanup, Tickets, IncarnationFenced, AdmissionClosed;
  }

  lemma CallsMoveOn(s: Sys, inc: u64, ok: bool, now: u64)
    requires s.pc.Acquiring? || s.pc.Releasing? || s.pc.ReleasingFailed? || s.pc.Acknowledging?
    ensures MovedOn(s, DispatchStep(s, inc, ok, now))
  {
    hide Acquire, Release, AcknowledgeCleanup, Tickets, CheckStep;
  }

  lemma TransfersMoveOn(s: Sys, inc: u64, ok: bool, now: u64)
    requires s.pc.SendExecute? || s.pc.AwaitExecute? || s.pc.SendDrain? || s.pc.AwaitDrain?
    ensures MovedOn(s, DispatchStep(s, inc, ok, now))
  {
    hide Acquire, Release, AcknowledgeCleanup, Tickets, CheckStep;
  }

  lemma MovingOn(s: Sys, inc: u64, ok: bool, now: u64)
    requires MovesOn(s.pc)
    ensures MovedOn(s, DispatchStep(s, inc, ok, now))
  {
    hide DispatchStep, MovedOn;
    if s.pc.Starting? || s.pc.FailStore? || s.pc.FailClose? || s.pc.Exited? {
      EdgesMoveOn(s, inc, ok, now);
    } else if s.pc.CheckEpoch? || s.pc.CheckAuthority? || s.pc.CheckFence? || s.pc.CheckDrain? {
      ChecksMoveOn(s, inc, ok, now);
    } else if s.pc.Acquiring? || s.pc.Releasing? || s.pc.ReleasingFailed? || s.pc.Acknowledging? {
      CallsMoveOn(s, inc, ok, now);
    } else {
      TransfersMoveOn(s, inc, ok, now);
    }
  }

  lemma DispatcherSettles(s: Sys, inc: u64, ok: bool, now: u64)
    requires Settles(s)
    ensures Settles(DispatchStep(s, inc, ok, now))
  {
    if MovesOn(s.pc) {
      MovingOn(s, inc, ok, now);
      hide DispatchStep, InFlight, Tickets;
    } else {
      LoopSettles(s, inc, ok, now);
    }
  }

  lemma LoopSettles(s: Sys, inc: u64, ok: bool, now: u64)
    requires Settles(s) && !MovesOn(s.pc)
    ensures Settles(DispatchStep(s, inc, ok, now))
  {
    hide Tickets, Conserved;
    if s.pc.LoopHead? {
      if s.q.items != [] {
        PopSettles(s.q);
      }
    } else if s.pc.FailSwap? {
      SwapSettles(s.q, InFlight(s.pc));
    } else if s.pc.FailSettle? {
      FailureSettles(s.q, AfterTicket(s.pc.after), s.pc.rest);
    } else {
      SettlingSettles(s.q, s.pc.cmd, s.pc.ok);
    }
  }

  lemma StepSettles(s: Sys, inc: u64, a: Act)
    requires Settles(s)
    ensures Settles(Next(s, inc, a))
  {
    if a.EnqueueCheck? || a.EnqueuePush? {
      ControllerSettles(s, inc, a);
    } else if a.Dispatch? {
      DispatcherSettles(s, inc, a.ok, a.now);
      hide DispatchStep, Settles;
    } else {
      hide Conserved, Partitioned, Closing, Step, RequestDrain, WorkerStep;
    }
  }

  lemma {:induction false} SettlesOverRuns(s: Sys, inc: u64, acts: seq<Act>)
    requires Settles(s)
    ensures Settles(Runs(s, inc, acts))
    decreases |acts|
  {
    if acts != [] {
      StepSettles(s, inc, acts[0]);
      hide Next, Settles;
      SettlesOverRuns(Next(s, inc, acts[0]), inc, acts[1..]);
    }
  }

  /** From a new router on, in every interleaving, the promises are accounted for: none is fulfilled
      twice, none is lost, at most 64 wait. */
  lemma PromisesAreKept(s: Sys, inc: u64, acts: seq<Act>)
    requires Fresh(s)
    ensures var t := Runs(s, inc, acts);
            && Conserved(t.q, InFlight(t.pc)) && Partitioned(t.q) && Closing(t.q, t.pc)
            && (forall ticket :: multiset(t.q.settled)[ticket] <= 1)
  {
    FreshSettles(s);
    SettlesOverRuns(s, inc, acts);
    var t := Runs(s, inc, acts);
    hide Runs, Fresh, Partitioned, Closing, InFlight, Tickets;
    forall ticket
      ensures multiset(t.q.settled)[ticket] <= 1
    {
      SettledOnce(t.q, InFlight(t.pc), ticket);
    }
  }

  lemma SettledOnce(q: Queue, flight: seq<nat>, ticket: nat)
    requires Conserved(q, flight)
    ensures multiset(q.settled)[ticket] <= 1
  {
    assert multiset(q.accepted)[ticket] <= 1;
    hide Tickets;
  }

  /** When the dispatcher of a router has ended, whatever happened before, every accepted command was
      answered exactly once, and every later enqueue is refused. */
  lemma NothingLeftBehind(s: Sys, inc: u64, acts: seq<Act>)
    requires Fresh(s) && Runs(s, inc, acts).pc.Exited?
    ensures var q := Runs(s, inc, acts).q;
            && multiset(q.settled) == multiset(q.accepted) && q.items == [] && q.holder == None
            && forall c :: TryEnter(q, c).holder == None && c.ticket in TryEnter(q, c).rejected
  {
    FreshSettles(s);
    SettlesOverRuns(s, inc, acts);
    hide Runs, Fresh;
    Ended(Runs(s, inc, acts));
    hide Settles;
  }

  lemma Ended(s: Sys)
    requires Settles(s) && s.pc.Exited?
    ensures multiset(s.q.settled) == multiset(s.q.accepted) && s.q.items == [] && s.q.holder == None && !s.q.alive
  {
    TicketsOfNone();
    hide Tickets;
  }
}
