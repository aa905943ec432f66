/** What the promises are answered with (session.cpp:218-343): success exactly for the commands whose reply
    was read and, for a drain, whose cleanup the runtime recorded. */
module Answers {
  import opened Prelude
  import opened Errors
  import opened Records
  import opened RuntimeState
  import opened RuntimeRuns
  import opened Router
  import opened Settlement
  import opened Lockstep

  /** What happened in a run: the commands by ticket, the tickets whose reply the dispatcher read, and
      those of drains whose cleanup the runtime recorded. */
  datatype History = History(issued: map<nat, Cmd>, read: set<nat>, recorded: set<nat>)

  const NOTHING := History(map[], {}, {})

  /** The dispatcher reads a reply in this step. */
  predicate Reads(s: Sys, a: Act)
  {
    a.Dispatch? && a.ok && s.net.toRouter != [] && (s.pc.AwaitExecute? || s.pc.AwaitDrain?)
  }

  /** The runtime records a cleanup in this step. */
  predicate Confirms(s: Sys, inc: u64, a: Act)
  {
    a.Dispatch? && s.pc.Acknowledging? && AcknowledgeCleanup(s.rt, inc).1.Done?
  }

  /** A command gets its ticket in this step. */
  predicate Issues(s: Sys, a: Act)
  {
    a.EnqueueCheck? && s.q.holder.None? && (a.drain ==> s.drainers > 0)
  }

  function Note(h: History, s: Sys, inc: u64, a: Act): History
  {
    if Issues(s, a) then
      var c := Cmd(s.q.issued, a.drain, a.cmdId, a.epoch, a.authority, a.wanted);
      h.(issued := h.issued[c.ticket := c])
    else if Reads(s, a) then h.(read := h.read + {s.pc.cmd.ticket})
    else if Confirms(s, inc, a) then h.(recorded := h.recorded + {s.pc.cmd.ticket})
    else h
  }

  ghost function Noted(h: History, s: Sys, inc: u64, acts: seq<Act>): History
    decreases |acts|
  {
    if acts == [] then h else Noted(Note(h, s, inc, acts[0]), Next(s, inc, acts[0]), inc, acts[1..])
  }

  /** The command was carried out, as far as the dispatcher can tell. */
  predicate Carried(h: History, c: Cmd)
  {
    c.ticket in h.read && (c.drain ==> c.ticket in h.recorded)
  }

  /* ---- the invariant ---- */

  predicate HasCmd(pc: Pc)
  {
    && !pc.Starting? && !pc.LoopHead? && !pc.FailStore? && !pc.FailSwap? && !pc.FailSettle? && !pc.FailClose?
    && !pc.Exited?
  }

  /** The commands that the dispatcher holds. */
  function HeldBy(pc: Pc): seq<Cmd>
  {
    if HasCmd(pc) then [pc.cmd] else SweptBy(pc)
  }

  function SweptBy(pc: Pc): seq<Cmd>
  {
    match pc
    case FailStore(after) => Kept(after)
    case FailSwap(after) => Kept(after)
    case FailSettle(after, rest) => Kept(after) + rest
    case FailClose(after) => Kept(after)
    case _ => []
  }

  function Kept(after: Option<Cmd>): seq<Cmd>
  {
    match after
    case None => []
    case Some(c) => [c]
  }

  /** Every command under way is the one that its ticket was issued to. */
  ghost predicate Known(h: History, s: Sys)
  {
    && (forall c :: c in s.q.items + Kept(s.q.holder) + HeldBy(s.pc) ==>
          c.ticket in h.issued && h.issued[c.ticket] == c)
    && (forall t :: t in h.issued ==> t < s.q.issued && h.issued[t].ticket == t)
    && (forall t :: t in s.q.settled ==> t in h.issued)
  }

  /** Past its reply: the ticket of the command that the dispatcher holds may be among those read. */
  predicate AfterReply(pc: Pc)
  {
    pc.Releasing? || pc.Acknowledging? || pc.Settling?
  }

  ghost predicate Truth(h: History, s: Sys)
  {
    && h.recorded <= h.read
    && (forall t :: t in h.read ==> t in s.q.settled || (AfterReply(s.pc) && s.pc.cmd.ticket == t))
    && (forall t :: t in h.recorded ==> t in s.q.settled || (s.pc.Settling? && s.pc.cmd.ticket == t))
    && (s.pc.Releasing? ==> s.pc.cmd.ticket in h.read && !s.pc.cmd.drain)
    && (s.pc.Acknowledging? ==> s.pc.cmd.ticket in h.read && s.pc.cmd.drain)
    && (s.pc.Settling? ==> (s.pc.ok <==> Carried(h, s.pc.cmd)))
  }

  /** Each promise that was answered tells the truth. */
  ghost predicate Told(h: History, q: Queue)
  {
    && (forall t :: t in q.succeeded ==> t in q.settled)
    && (forall t :: t in q.settled && t in h.issued ==> (t in q.succeeded <==> Carried(h, h.issued[t])))
  }

  ghost predicate Answering(h: History, s: Sys)
  {
    Known(h, s) && Truth(h, s) && Told(h, s.q)
  }

  lemma FreshAnswers(s: Sys)
    requires Fresh(s)
    ensures Answering(NOTHING, s)
  {
  }

  /* ---- what the dispatcher holds is not yet answered ---- */

  lemma InFlightUnsettled(q: Queue, flight: seq<nat>, t: nat)
    requires Conserved(q, flight) && t in flight
    ensures t !in q.settled
  {
    assert multiset(q.settled)[t] + multiset(flight)[t] <= multiset(q.accepted)[t] <= 1;
    hide Tickets;
  }

  lemma HeldInFlight(pc: Pc, c: Cmd)
    requires c in HeldBy(pc)
    ensures c.ticket in InFlight(pc)
  {
    if pc.FailSettle? && c in pc.rest {
      var i :| 0 <= i < |pc.rest| && pc.rest[i] == c;
      assert Tickets(pc.rest)[i] == c.ticket;
    }
  }

  /** A command that is held before its reply was read has no answer and no reply. */
  lemma NotYet(h: History, s: Sys, c: Cmd)
    requires Settles(s) && Truth(h, s) && c in HeldBy(s.pc)
    ensures c.ticket !in s.q.settled
    ensures !AfterReply(s.pc) ==> c.ticket !in h.read
  {
    HeldInFlight(s.pc, c);
    InFlightUnsettled(s.q, InFlight(s.pc), c.ticket);
    hide Conserved, InFlight, HeldBy, Partitioned;
  }

  /* ---- the steps ---- */

  lemma EnterTells(h: History, s: Sys, c: Cmd, t: Sys)
    requires Answering(h, s) && s.q.holder.None? && c.ticket == s.q.issued
    requires t.q == TryEnter(s.q, c) && t.pc == s.pc
    ensures Answering(h.(issued := h.issued[c.ticket := c]), t)
  {
    hide HeldBy;
    assert c.ticket !in h.issued;
    assert forall d :: d in s.q.items + Kept(s.q.holder) + HeldBy(s.pc) ==> d.ticket != c.ticket;
    hide AfterReply;
  }

  lemma PushTells(h: History, s: Sys, t: Sys)
    requires Answering(h, s) && s.q.holder.Some? && t.q == Push(s.q) && t.pc == s.pc
    ensures Answering(h, t)
  {
    hide HeldBy, AfterReply, Carried;
  }

  lemma ControllerTells(h: History, s: Sys, inc: u64, a: Act)
    requires Answering(h, s) && (a.EnqueueCheck? || a.EnqueuePush?)
    ensures Answering(Note(h, s, inc, a), Next(s, inc, a))
  {
    hide AcknowledgeCleanup, Answering;
    if a.EnqueueCheck? && Issues(s, a) {
      EnterTells(h, s, Cmd(s.q.issued, a.drain, a.cmdId, a.epoch, a.authority, a.wanted), Next(s, inc, a));
    } else if a.EnqueuePush? && s.q.holder.Some? {
      PushTells(h, s, Next(s, inc, a));
    }
  }

  lemma ElsewhereTells(h: History, s: Sys, inc: u64, a: Act)
    requires Answering(h, s) && !a.EnqueueCheck? && !a.EnqueuePush? && !a.Dispatch?
    ensures Answering(Note(h, s, inc, a), Next(s, inc, a))
  {
    hide AcknowledgeCleanup, HeldBy, Step, RequestDrain, WorkerStep;
  }

  /** The dispatcher moves on without reading, confirming or answering anything. */
  lemma MovingTells(h: History, s: Sys, t: Sys)
    requires Answering(h, s) && Settles(s) && !AfterReply(s.pc)
    requires t.q.settled == s.q.settled && t.q.succeeded == s.q.succeeded && t.q.issued == s.q.issued
    requires forall c :: c in t.q.items + Kept(t.q.holder) + HeldBy(t.pc) ==>
               c in s.q.items + Kept(s.q.holder) + HeldBy(s.pc)
    requires AfterReply(t.pc) ==> t.pc.Settling? && !t.pc.ok && t.pc.cmd in HeldBy(s.pc)
    ensures Answering(h, t)
  {
    if AfterReply(t.pc) {
      NotYet(h, s, t.pc.cmd);
    }
    hide HeldBy, Kept, Settles;
  }

  lemma CheckTells(h: History, s: Sys, inc: u64, ok: bool, now: u64)
    requires Answering(h, s) && Settles(s)
    requires s.pc.CheckEpoch? || s.pc.CheckAuthority? || s.pc.CheckFence? || s.pc.CheckDrain?
    ensures Answering(h, DispatchStep(s, inc, ok, now))
  {
    hide Settles, Known, Truth, Told, IncarnationFenced, AdmissionClosed;
    MovingTells(h, s, DispatchStep(s, inc, ok, now));
  }

  lemma WorkTells(h: History, s: Sys, inc: u64, ok: bool, now: u64)
    requires Answering(h, s) && Settles(s)
    requires s.pc.Acquiring? || s.pc.SendExecute? || s.pc.SendDrain? || s.pc.ReleasingFailed?
    ensures Answering(h, DispatchStep(s, inc, ok, now))
  {
    hide Settles, Known, Truth, Told, Acquire, Release;
    MovingTells(h, s, DispatchStep(s, inc, ok, now));
  }

  lemma LoopTells(h: History, s: Sys, inc: u64, ok: bool, now: u64)
    requires Answering(h, s) && Settles(s)
    requires s.pc.Starting? || s.pc.LoopHead? || s.pc.FailStore? || s.pc.FailSwap? || s.pc.FailClose? || s.pc.Exited?
    ensures Answering(h, DispatchStep(s, inc, ok, now))
  {
    hide Settles, Known, Truth, Told;
    MovingTells(h, s, DispatchStep(s, inc, ok, now));
  }

  /** A reply that fails or does not come yet. */
  lemma NoReplyTells(h: History, s: Sys, inc: u64, ok: bool, now: u64)
    requires Answering(h, s) && Settles(s) && (s.pc.AwaitExecute? || s.pc.AwaitDrain?)
    requires !ok || s.net.toRouter == []
    ensures Answering(h, DispatchStep(s, inc, ok, now))
  {
    hide Settles, Known, Truth, Told;
    MovingTells(h, s, DispatchStep(s, inc, ok, now));
  }

  lemma AwaitTells(h: History, s: Sys, inc: u64, ok: bool, now: u64)
    requires Answering(h, s) && Settles(s) && Honest(s) && (s.pc.AwaitExecute? || s.pc.AwaitDrain?)
    ensures var a := Dispatch(ok, now); Answering(Note(h, s, inc, a), Next(s, inc, a))
  {
    hide Answering, Settles, Honest, DispatchStep, AcknowledgeCleanup;
    if ok && s.net.toRouter != [] {
      hide Next, Note;
      ReadTells(h, s, inc, now);
    } else {
      NoReplyTells(h, s, inc, ok, now);
    }
  }

  lemma ReadShape(h: History, s: Sys, inc: u64, now: u64)
    requires (s.pc.AwaitExecute? || s.pc.AwaitDrain?) && s.net.toRouter != []
    ensures var a := Dispatch(true, now); var t := Next(s, inc, a);
            && Note(h, s, inc, a) == h.(read := h.read + {s.pc.cmd.ticket}) && t.q == s.q
            && t.pc == if s.pc.AwaitExecute? then Releasing(s.pc.cmd, s.pc.use) else Acknowledging(s.pc.cmd)
  {
    hide AcknowledgeCleanup;
  }

  lemma KindAwaited(s: Sys)
    requires Honest(s) && (s.pc.AwaitExecute? || s.pc.AwaitDrain?)
    ensures s.pc.cmd.drain == s.pc.AwaitDrain?
  {
  }

  lemma ReadTells(h: History, s: Sys, inc: u64, now: u64)
    requires Answering(h, s) && Settles(s) && Honest(s) && (s.pc.AwaitExecute? || s.pc.AwaitDrain?)
    requires s.net.toRouter != []
    ensures var a := Dispatch(true, now); Answering(Note(h, s, inc, a), Next(s, inc, a))
  {
    var c, t := s.pc.cmd, Next(s, inc, Dispatch(true, now));
    ReadShape(h, s, inc, now);
    KindAwaited(s);
    hide Next, Note, Honest, HeldBy, Carried;
    HeldCmd(s.pc);
    NotYet(h, s, c);
    hide Settles;
    StillTold(h, h.(read := h.read + {c.ticket}), s.q, c.ticket);
    hide Told;
    OneRead(h, s, t, c);
    hide Known, Truth;
  }

  lemma HeldCmd(pc: Pc)
    requires HasCmd(pc)
    ensures HeldBy(pc) == [pc.cmd]
  {
  }

  lemma OneRead(h: History, s: Sys, t: Sys, c: Cmd)
    requires Known(h, s) && Truth(h, s) && !AfterReply(s.pc) && HasCmd(s.pc) && s.pc.cmd == c && t.q == s.q
    requires (t.pc.Releasing? && !c.drain) || (t.pc.Acknowledging? && c.drain)
    requires t.pc.cmd == c
    ensures var g := h.(read := h.read + {c.ticket}); Known(g, t) && Truth(g, t)
  {
    hide Carried;
    assert HeldBy(t.pc) == HeldBy(s.pc);
  }

  /** What becomes known of one ticket does not touch the answers to others. */
  lemma StillTold(h: History, g: History, q: Queue, t: nat)
    requires Told(h, q) && t !in q.settled && g.issued == h.issued
    requires forall u :: u in h.issued ==> h.issued[u].ticket == u
    requires forall u :: u != t ==> (u in g.read <==> u in h.read) && (u in g.recorded <==> u in h.recorded)
    ensures Told(g, q)
  {
  }

  lemma AcknowledgeShape(h: History, s: Sys, inc: u64, ok: bool, now: u64)
    requires s.pc.Acknowledging?
    ensures var a := Dispatch(ok, now); var t := Next(s, inc, a);
            var done := AcknowledgeCleanup(s.rt, inc).1.Done?;
            && Note(h, s, inc, a) ==
               h.(recorded := if done then h.recorded + {s.pc.cmd.ticket} else h.recorded)
            && t.q == s.q && t.pc == Settling(s.pc.cmd, done)
  {
    hide AcknowledgeCleanup;
  }

  /** The runtime was asked to record the cleanup; the promise is about to tell. */
  lemma AcknowledgeTells(h: History, s: Sys, inc: u64, ok: bool, now: u64)
    requires Answering(h, s) && Settles(s) && s.pc.Acknowledging?
    ensures var a := Dispatch(ok, now); Answering(Note(h, s, inc, a), Next(s, inc, a))
  {
    var c, done := s.pc.cmd, AcknowledgeCleanup(s.rt, inc).1.Done?;
    AcknowledgeShape(h, s, inc, ok, now);
    hide Next, Note, HeldBy, Carried, AcknowledgeCleanup;
    HeldCmd(s.pc);
    NotYet(h, s, c);
    hide Settles;
    StillTold(h, h.(recorded := if done then h.recorded + {c.ticket} else h.recorded), s.q, c.ticket);
    hide Told;
    OneRecorded(h, s, Next(s, inc, Dispatch(ok, now)), c, done);
    hide Known, Truth;
  }

  lemma OneRecorded(h: History, s: Sys, t: Sys, c: Cmd, done: bool)
    requires Known(h, s) && Truth(h, s) && s.pc == Acknowledging(c) && t.q == s.q && t.pc == Settling(c, done)
    requires c.ticket !in s.q.settled
    ensures var g := h.(recorded := if done then h.recorded + {c.ticket} else h.recorded); Known(g, t) && Truth(g, t)
  {
    assert HeldBy(t.pc) == HeldBy(s.pc);
  }

  lemma ReleaseTells(h: History, s: Sys, inc: u64, ok: bool, now: u64)
    requires Answering(h, s) && Settles(s) && s.pc.Releasing?
    ensures Answering(h, DispatchStep(s, inc, ok, now))
  {
    hide Settles, Release, Told;
  }

  /** An answer is given: of the command past its reply, or of one that the failure swept up. */
  lemma SettledTells(h: History, s: Sys, t: Sys, c: Cmd, ok: bool)
    requires Answering(h, s) && c in HeldBy(s.pc) && (ok <==> Carried(h, c))
    requires t.q == Settle(s.q, c, ok) && !AfterReply(t.pc)
    requires AfterReply(s.pc) ==> s.pc.cmd == c
    requires forall d :: d in HeldBy(t.pc) ==> d in HeldBy(s.pc)
    requires c.ticket !in s.q.settled
    ensures Answering(h, t)
  {
    hide HeldBy, Kept, Carried;
    assert t.q.settled == s.q.settled + [c.ticket];
  }

  lemma SettlingTells(h: History, s: Sys, inc: u64, ok: bool, now: u64)
    requires Answering(h, s) && Settles(s) && s.pc.Settling?
    ensures Answering(h, DispatchStep(s, inc, ok, now))
  {
    NotYet(h, s, s.pc.cmd);
    hide Settles, Known, Told;
    SettledTells(h, s, DispatchStep(s, inc, ok, now), s.pc.cmd, s.pc.ok);
  }

  lemma SweepTells(h: History, s: Sys, inc: u64, ok: bool, now: u64)
    requires Answering(h, s) && Settles(s) && s.pc.FailSettle?
    ensures Answering(h, DispatchStep(s, inc, ok, now))
  {
    var t := DispatchStep(s, inc, ok, now);
    hide Known, Truth, Told;
    if s.pc.rest == [] {
      hide Settles;
      MovingTells(h, s, t);
    } else {
      var c := s.pc.rest[0];
      assert c in HeldBy(s.pc);
      NotYet(h, s, c);
      hide Settles;
      SettledTells(h, s, t, c, false);
    }
  }

  lemma DispatcherTells(h: History, s: Sys, inc: u64, ok: bool, now: u64)
    requires Answering(h, s) && Settles(s) && Honest(s)
    ensures var a := Dispatch(ok, now); Answering(Note(h, s, inc, a), Next(s, inc, a))
  {
    hide Answering, Settles, Honest, DispatchStep, AcknowledgeCleanup;
    match s.pc {
      case AwaitExecute(_, _) => AwaitTells(h, s, inc, ok, now);
      case AwaitDrain(_) => AwaitTells(h, s, inc, ok, now);
      case Acknowledging(_) => AcknowledgeTells(h, s, inc, ok, now);
      case Releasing(_, _) => ReleaseTells(h, s, inc, ok, now);
      case Settling(_, _) => SettlingTells(h, s, inc, ok, now);
      case FailSettle(_, _) => SweepTells(h, s, inc, ok, now);
      case CheckEpoch(_) => CheckTells(h, s, inc, ok, now);
      case CheckAuthority(_) => CheckTells(h, s, inc, ok, now);
      case CheckFence(_) => CheckTells(h, s, inc, ok, now);
      case CheckDrain(_) => CheckTells(h, s, inc, ok, now);
      case Acquiring(_) => WorkTells(h, s, inc, ok, now);
      case SendExecute(_, _) => WorkTells(h, s, inc, ok, now);
      case SendDrain(_) => WorkTells(h, s, inc, ok, now);
      case ReleasingFailed(_, _) => WorkTells(h, s, inc, ok, now);
      case _ => LoopTells(h, s, inc, ok, now);
    }
  }

  lemma StepTells(h: History, s: Sys, inc: u64, a: Act)
    requires Answering(h, s) && Settles(s) && Honest(s)
    ensures Answering(Note(h, s, inc, a), Next(s, inc, a))
  {
    hide Answering, Settles, Honest, Next, Note;
    if a.EnqueueCheck? || a.EnqueuePush? {
      ControllerTells(h, s, inc, a);
    } else if a.Dispatch? {
      DispatcherTells(h, s, inc, a.ok, a.now);
    } else {
      ElsewhereTells(h, s, inc, a);
    }
  }

  lemma {:induction false} TellsOverRuns(h: History, s: Sys, inc: u64, acts: seq<Act>)
    requires Answering(h, s) && Settles(s) && Correlated(s)
    ensures Answering(Noted(h, s, inc, acts), Runs(s, inc, acts))
    decreases |acts|
  {
    if acts != [] {
      StepTells(h, s, inc, acts[0]);
      StepSettles(s, inc, acts[0]);
      StepCorrelates(s, inc, acts[0]);
      hide Answering, Settles, Correlated, Next, Note;
      TellsOverRuns(Note(h, s, inc, acts[0]), Next(s, inc, acts[0]), inc, acts[1..]);
    }
  }

  /** From a new router on, in every interleaving, a promise that was answered says success exactly when the
      dispatcher read a reply to its command and, for a drain, the runtime recorded the cleanup. */
  lemma AnswersTellTheTruth(s: Sys, inc: u64, acts: seq<Act>, t: nat)
    requires Fresh(s)
    ensures var h := Noted(NOTHING, s, inc, acts); var q := Runs(s, inc, acts).q;
            && (t in q.succeeded ==> t in q.settled)
            && (t in q.settled ==>
                  && t in h.issued && h.issued[t].ticket == t
                  && (t in q.succeeded <==> t in h.read && (h.issued[t].drain ==> t in h.recorded)))
  {
    FreshAnswers(s);
    FreshSettles(s);
    FreshCorrelated(s);
    hide Fresh;
    TellsOverRuns(NOTHING, s, inc, acts);
    hide Runs, Noted, Truth;
  }
}
