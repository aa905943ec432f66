/** RELEASE_USE at the message interface (session.cpp:441-449, 582-595): a session reads the fence, then the
    drain, then calls the runtime, and every other thread may act in between. What that means for a use
    that is open when admission is fenced. */
module Sessions {
  import opened Prelude
  import opened Errors
  import opened Records
  import opened RuntimeState
  import opened RuntimeRuns
  import opened Accounting
  import opened Drains
  import opened Router
  import opened Lockstep
  import opened DrainSafety
  import opened ForeignUses

  /** How far a session is with its message: nothing read, the fence read, or both guards read. */
  datatype Stage = Arrived | NotFenced | Passed

  datatype Call = Call(use: u64, target: u64, detail: bytes, stage: Stage)

  datatype Answer = Answer(sid: nat, call: Call, ret: Ret)

  /** The router machine, the message that each session is working on, and the answers sent. */
  datatype House = House(sys: Sys, calls: map<nat, Call>, answers: seq<Answer>)

  datatype Move =
    | Elsewhere(act: Act)  // anything but a release by a session
    | Arrive(sid: nat, epoch: u64, use: u64, target: u64, detail: bytes)
    | ReadFence(sid: nat)
    | ReadDrain(sid: nat)
    | CallRelease(sid: nat, now: u64)

  function Answered(h: House, sid: nat, ret: Ret): House
    requires sid in h.calls
  {
    h.(calls := h.calls - {sid}, answers := h.answers + [Answer(sid, h.calls[sid], ret)])
  }

  function Advanced(h: House, sid: nat, stage: Stage): House
    requires sid in h.calls
  {
    h.(calls := h.calls[sid := h.calls[sid].(stage := stage)])
  }

  predicate At(h: House, sid: nat, stage: Stage)
  {
    sid in h.calls && h.calls[sid].stage == stage
  }

  function ArriveStep(h: House, sid: nat, epoch: u64, c: Call): House
  {
    if sid in h.calls then h
    else if epoch != 0 && epoch != h.sys.rt.epoch then
      h.(answers := h.answers + [Answer(sid, c, Threw(StaleEpoch))])
    else h.(calls := h.calls[sid := c])
  }

  function ClosingCall(c: Call, now: u64): Closing
  {
    Closing(Completed, c.detail, now)
  }

  function CallStep(h: House, sid: nat, now: u64): House
    requires sid in h.calls
  {
    var c := h.calls[sid];
    var r := Release(h.sys.rt, c.use, c.target, ClosingCall(c, now));
    Answered(h, sid, r.1).(sys := h.sys.(rt := r.0))
  }

  /** Releases come from the dispatcher and from sessions only. */
  predicate ForeignRelease(a: Act)
  {
    a.RuntimeCall? && a.op.OpRelease?
  }

  ghost function MoveStep(h: House, inc: u64, v: Move): House
  {
    match v
    case Elsewhere(a) => if ForeignRelease(a) then h else h.(sys := Next(h.sys, inc, a))
    case Arrive(sid, epoch, use, target, detail) => ArriveStep(h, sid, epoch, Call(use, target, detail, Arrived))
    case ReadFence(sid) =>
      if !At(h, sid, Arrived) then h
      else if IncarnationFenced(h.sys.rt, h.calls[sid].target) then Answered(h, sid, Threw(FencedWorker))
      else Advanced(h, sid, NotFenced)
    case ReadDrain(sid) =>
      if !At(h, sid, NotFenced) then h
      else if AdmissionClosed(h.sys.rt, h.calls[sid].target) then Answered(h, sid, Threw(FencedWorker))
      else Advanced(h, sid, Passed)
    case CallRelease(sid, now) => if At(h, sid, Passed) then CallStep(h, sid, now) else h
  }

  ghost function Moves(h: House, inc: u64, vs: seq<Move>): House
    decreases |vs|
  {
    if vs == [] then h else Moves(MoveStep(h, inc, vs[0]), inc, vs[1..])
  }

  /* ---- the session machine is a way of running the router machine ---- */

  ghost function ActsOf(h: House, v: Move): (acts: seq<Act>)
    ensures |acts| <= 1
  {
    match v
    case Elsewhere(a) => if ForeignRelease(a) then [] else [a]
    case CallRelease(sid, now) =>
      if At(h, sid, Passed) then
        var c := h.calls[sid];
        [RuntimeCall(OpRelease(c.use, c.target, ClosingCall(c, now)))]
      else []
    case _ => []
  }

  ghost function AllActs(h: House, inc: u64, vs: seq<Move>): (acts: seq<Act>)
    ensures |acts| <= |vs|
    decreases |vs|
  {
    if vs == [] then [] else ActsOf(h, vs[0]) + AllActs(MoveStep(h, inc, vs[0]), inc, vs[1..])
  }

  lemma MoveIsAct(h: House, inc: u64, v: Move)
    ensures MoveStep(h, inc, v).sys == if ActsOf(h, v) == [] then h.sys else Next(h.sys, inc, ActsOf(h, v)[0])
  {
    if v.CallRelease? && At(h, v.sid, Passed) {
      var c := h.calls[v.sid];
      var op := OpRelease(c.use, c.target, ClosingCall(c, v.now));
      StepRelease(h.sys.rt, op);
      hide Step, Release;
    } else {
      hide Next;
    }
  }

  lemma {:induction false} MovesAreActs(h: House, inc: u64, vs: seq<Move>)
    ensures Moves(h, inc, vs).sys == Runs(h.sys, inc, AllActs(h, inc, vs))
    decreases |vs|
  {
    if vs != [] {
      var k := MoveStep(h, inc, vs[0]);
      MoveIsAct(h, inc, vs[0]);
      hide MoveStep, Next, ActsOf;
      MovesAreActs(k, inc, vs[1..]);
      OneActFirst(h.sys, k.sys, inc, ActsOf(h, vs[0]), AllActs(k, inc, vs[1..]));
      hide Runs;
    }
  }

  lemma OneActFirst(s: Sys, t: Sys, inc: u64, acts: seq<Act>, rest: seq<Act>)
    requires |acts| <= 1 && t == if acts == [] then s else Next(s, inc, acts[0])
    ensures Runs(s, inc, acts + rest) == Runs(t, inc, rest)
  {
    hide Next, Runs;
    if acts == [] {
      assert acts + rest == rest;
    } else {
      assert acts == [acts[0]];
      RunsFirst(s, inc, acts[0], rest);
    }
  }

  /* ---- one message left alone ---- */

  /** RELEASE_USE without interference. */
  function ReleaseUse(s: State, use: u64, target: u64, c: Closing): Effect
  {
    if IncarnationFenced(s, target) || AdmissionClosed(s, target) then (s, Threw(FencedWorker))
    else Release(s, use, target, c)
  }

  /** It succeeds exactly when the incarnation is neither fenced nor drained and the use is open and its
      own; otherwise nothing changes. */
  lemma ReleaseUseIsExact(s: State, use: u64, target: u64, c: Closing)
    requires Accounted(s)
    ensures ReleaseUse(s, use, target, c).1.Done? <==>
            !IncarnationFenced(s, target) && !AdmissionClosed(s, target) && use in OpenFor(s.activeUses, target)
    ensures ReleaseUse(s, use, target, c).1.Threw? ==> ReleaseUse(s, use, target, c).0 == s
  {
    UnderflowUnreachable(s, use, target, c);
    hide Release, IncarnationFenced, AdmissionClosed, Accounted;
    if ReleaseCheck(s, use, target).Fail? {
      ReleaseRefused(s, use, target, c);
    }
  }

  /** The four steps of a session, with nobody in between, are that. */
  lemma LeftAlone(h: House, inc: u64, sid: nat, use: u64, target: u64, detail: bytes, now: u64)
    requires sid !in h.calls
    ensures var t := MoveStep(MoveStep(MoveStep(MoveStep(h, inc, Arrive(sid, 0, use, target, detail)), inc,
                       ReadFence(sid)), inc, ReadDrain(sid)), inc, CallRelease(sid, now));
            var r := ReleaseUse(h.sys.rt, use, target, Closing(Completed, detail, now));
            && t.sys == h.sys.(rt := r.0) && t.calls == h.calls
            && |t.answers| == |h.answers| + 1 && t.answers[|h.answers|].sid == sid && t.answers[|h.answers|].ret == r.1
  {
    hide Next, Release, IncarnationFenced, AdmissionClosed;
    var c := Call(use, target, detail, Arrived);
    var h1 := MoveStep(h, inc, Arrive(sid, 0, use, target, detail));
    assert h1 == h.(calls := h.calls[sid := c]);
    assert h.calls[sid := c] - {sid} == h.calls;
    var h2 := MoveStep(h1, inc, ReadFence(sid));
    if !IncarnationFenced(h.sys.rt, target) {
      assert h2.calls == h.calls[sid := c.(stage := NotFenced)];
      var h3 := MoveStep(h2, inc, ReadDrain(sid));
      if !AdmissionClosed(h.sys.rt, target) {
        assert h3.calls == h.calls[sid := c.(stage := Passed)];
      } else {
        assert h3.calls == h.calls;
      }
    }
  }

  /* ---- after admission is fenced ---- */

  /** The calls about the incarnation that have read their guards and not yet called the runtime. */
  function InFlight(h: House, inc: u64): map<nat, Call>
  {
    map sid | sid in h.calls && h.calls[sid].stage.Passed? && h.calls[sid].target == inc :: h.calls[sid]
  }

  function UsesIn(calls: map<nat, Call>): set<u64>
  {
    set sid | sid in calls :: calls[sid].use
  }

  /** The dispatcher works on uses that it acquired. */
  predicate WorksOnOwn(s: Sys)
  {
    HasUse(s.pc) ==> s.pc.use in s.mine
  }

  lemma OwnStep(s: Sys, inc: u64, a: Act)
    requires WorksOnOwn(s)
    ensures WorksOnOwn(Next(s, inc, a))
  {
    hide Step, RequestDrain, Acquire, Release, AcknowledgeCleanup, CheckStep, WorkerStep;
    if a.Dispatch? && (s.pc.CheckEpoch? || s.pc.CheckAuthority? || s.pc.CheckFence? || s.pc.CheckDrain?) {
      ChecksHoldNoUse(s, inc);
    }
  }

  lemma ChecksHoldNoUse(s: Sys, inc: u64)
    requires s.pc.CheckEpoch? || s.pc.CheckAuthority? || s.pc.CheckFence? || s.pc.CheckDrain?
    ensures !HasUse(CheckStep(s, inc))
  {
    hide IncarnationFenced, AdmissionClosed;
  }

  /** The uses in `stuck` are open, nobody's, and none of them is about to be released. */
  ghost predicate Stuck(s: Sys, inc: u64, stuck: set<u64>, n: nat)
  {
    && Keyed(s.rt) && FreshUses(s.rt, n) && AdmissionClosed(s.rt, inc) && WorksOnOwn(s)
    && stuck <= OpenFor(s.rt.activeUses, inc) && stuck !! s.mine
  }

  lemma StuckStep(s: Sys, inc: u64, a: Act, stuck: set<u64>, n: nat)
    requires Stuck(s, inc, stuck, n + 1)
    requires ForeignRelease(a) && a.op.id == inc ==> a.op.use !in stuck
    ensures Stuck(Next(s, inc, a), inc, stuck, n)
  {
    StepOnlyCloses(s, inc, a, n);
    AcquiresNothing(s, inc, a);
    OwnStep(s, inc, a);
    NextCalls(s, inc, a);
    var op := OpOf(s, inc, a);
    hide Next, Keyed, AdmissionClosed, OpenFor, Step, OpOf;
    if op.Some? {
      ClosedOpens(s.rt, op.value, inc);
      OthersSpared(s, inc, a, stuck);
    }
  }

  lemma OthersSpared(s: Sys, inc: u64, a: Act, stuck: set<u64>)
    requires WorksOnOwn(s) && stuck !! s.mine && OpOf(s, inc, a).Some?
    requires ForeignRelease(a) && a.op.id == inc ==> a.op.use !in stuck
    ensures Closes([OpOf(s, inc, a).value], inc) !! stuck
  {
    ClosesOne(OpOf(s, inc, a).value, inc);
    hide Closes;
  }

  /** As above, in the house; `passed` are the calls that had read their guards before the fence. */
  ghost predicate Holds(h: House, inc: u64, stuck: set<u64>, passed: map<nat, Call>, n: nat)
  {
    && Stuck(h.sys, inc, stuck, n) && UsesIn(passed) !! stuck
    && InFlight(h, inc).Items <= passed.Items
  }

  lemma FlightShrinks(h: House, inc: u64, v: Move)
    requires AdmissionClosed(h.sys.rt, inc)
    ensures InFlight(MoveStep(h, inc, v), inc).Items <= InFlight(h, inc).Items
  {
    hide Next, Release, IncarnationFenced, AdmissionClosed;
  }

  lemma HoldsStep(h: House, inc: u64, v: Move, stuck: set<u64>, passed: map<nat, Call>, n: nat)
    requires Holds(h, inc, stuck, passed, n + 1)
    ensures Holds(MoveStep(h, inc, v), inc, stuck, passed, n)
  {
    FlightShrinks(h, inc, v);
    MoveIsAct(h, inc, v);
    FlightSpares(h, inc, v, stuck, passed);
    var acts := ActsOf(h, v);
    hide MoveStep, Next, ActsOf, InFlight, UsesIn;
    if acts != [] {
      StuckStep(h.sys, inc, acts[0], stuck, n);
    } else {
      StuckLess(h.sys, inc, stuck, n);
    }
    hide Stuck;
  }

  lemma StuckLess(s: Sys, inc: u64, stuck: set<u64>, n: nat)
    requires Stuck(s, inc, stuck, n + 1)
    ensures Stuck(s, inc, stuck, n)
  {
  }

  lemma FlightSpares(h: House, inc: u64, v: Move, stuck: set<u64>, passed: map<nat, Call>)
    requires UsesIn(passed) !! stuck && InFlight(h, inc).Items <= passed.Items
    ensures var acts := ActsOf(h, v);
            acts != [] && ForeignRelease(acts[0]) && acts[0].op.id == inc ==> acts[0].op.use !in stuck
  {
    if v.CallRelease? && At(h, v.sid, Passed) && h.calls[v.sid].target == inc {
      assert (v.sid, h.calls[v.sid]) in InFlight(h, inc).Items;
      assert (v.sid, h.calls[v.sid]) in passed.Items;
    }
  }

  lemma {:induction false} HoldsOn(h: House, inc: u64, vs: seq<Move>, stuck: set<u64>, passed: map<nat, Call>, n: nat)
    requires Holds(h, inc, stuck, passed, |vs| + n)
    ensures Holds(Moves(h, inc, vs), inc, stuck, passed, n)
    decreases |vs|
  {
    if vs != [] {
      HoldsStep(h, inc, vs[0], stuck, passed, |vs| - 1 + n);
      hide MoveStep, Holds;
      HoldsOn(MoveStep(h, inc, vs[0]), inc, vs[1..], stuck, passed, n);
    }
  }

  /* ---- from the start ---- */

  /** A router that was just created, and no session at work. */
  ghost predicate Opening(h: House)
  {
    Fresh(h.sys) && h.calls == map[] && h.answers == []
  }

  lemma {:induction false} AccountedOn(h: House, inc: u64, vs: seq<Move>, n: nat)
    requires Accounted(h.sys.rt) && FreshUses(h.sys.rt, |vs| + n)
    ensures Accounted(Moves(h, inc, vs).sys.rt)
    decreases |vs|
  {
    if vs != [] {
      AccountedMove(h, inc, vs[0], |vs| - 1 + n);
      hide MoveStep, Accounted, FreshUses;
      AccountedOn(MoveStep(h, inc, vs[0]), inc, vs[1..], n);
    }
  }

  lemma AccountedMove(h: House, inc: u64, v: Move, n: nat)
    requires Accounted(h.sys.rt) && FreshUses(h.sys.rt, n + 1)
    ensures Accounted(MoveStep(h, inc, v).sys.rt) && FreshUses(MoveStep(h, inc, v).sys.rt, n)
  {
    MoveIsAct(h, inc, v);
    FewerIds(h.sys.rt, n, n + 1);
    var acts := ActsOf(h, v);
    if acts != [] {
      NextCalls(h.sys, inc, acts[0]);
      var op := OpOf(h.sys, inc, acts[0]);
      hide MoveStep, Next, ActsOf, OpOf, Step, Accounted, FreshUses;
      if op.Some? {
        CountStep(h.sys.rt, op.value, n);
      }
    }
  }

  lemma {:induction false} OwnOnly(h: House, inc: u64, vs: seq<Move>)
    requires WorksOnOwn(h.sys)
    ensures WorksOnOwn(Moves(h, inc, vs).sys)
    decreases |vs|
  {
    if vs != [] {
      MoveIsAct(h, inc, vs[0]);
      hide MoveStep, Next, WorksOnOwn, ActsOf;
      var acts := ActsOf(h, vs[0]);
      if acts != [] {
        OwnStep(h.sys, inc, acts[0]);
      }
      OwnOnly(MoveStep(h, inc, vs[0]), inc, vs[1..]);
    }
  }

  lemma FewerIds(s: State, m: nat, n: nat)
    requires FreshUses(s, n) && m <= n
    ensures FreshUses(s, m)
  {
  }

  lemma ReachedHouse(h: House, inc: u64, vs: seq<Move>, n: nat)
    requires Opening(h) && Keyed(h.sys.rt) && FreshUses(h.sys.rt, |vs| + n)
    ensures var t := Moves(h, inc, vs).sys; Keyed(t.rt) && FreshUses(t.rt, n) && WorksOnOwn(t)
  {
    OwnOnly(h, inc, vs);
    MovesAreActs(h, inc, vs);
    var acts := AllActs(h, inc, vs);
    FewerIds(h.sys.rt, |acts| + n, |vs| + n);
    hide Moves, Runs, Keyed, FreshUses, WorksOnOwn, AllActs, Fresh;
    ReachableIsSafe(h.sys, inc, acts, n);
    SafeMeans(Runs(h.sys, inc, acts), inc, n);
  }

  lemma StuckAtFirst(m: House, inc: u64, n: nat)
    requires Keyed(m.sys.rt) && FreshUses(m.sys.rt, n) && WorksOnOwn(m.sys) && AdmissionClosed(m.sys.rt, inc)
    ensures Holds(m, inc, ForeignOpen(m.sys, inc) - UsesIn(InFlight(m, inc)), InFlight(m, inc), n)
  {
    hide Keyed, FreshUses, WorksOnOwn, AdmissionClosed, UsesIn, InFlight, OpenFor;
  }

  lemma WhatHolds(h: House, inc: u64, stuck: set<u64>, passed: map<nat, Call>, n: nat)
    requires Holds(h, inc, stuck, passed, n)
    ensures stuck <= ForeignOpen(h.sys, inc)
  {
    hide Keyed, FreshUses, WorksOnOwn, AdmissionClosed, UsesIn, InFlight, OpenFor;
  }

  /** Whether the backend is released under a use of another caller is decided when admission is fenced.
      From then on no such use is added, and none is closed but by calls that had read their guards
      before. With no such call in flight, when a DRAIN is about to be sent, or later, the open uses are
      exactly the foreign ones that were open at the fence. */
  lemma DecidedAtRequest(h: House, inc: u64, before: seq<Move>, after: seq<Move>)
    requires Opening(h) && Keyed(h.sys.rt) && FreshUses(h.sys.rt, |before| + |after|)
    requires AdmissionClosed(Moves(h, inc, before).sys.rt, inc)
    ensures var m := Moves(h, inc, before);
            var t := Moves(m, inc, after).sys;
            var flying := UsesIn(InFlight(m, inc));
            && ForeignOpen(m.sys, inc) - flying <= ForeignOpen(t, inc) <= ForeignOpen(m.sys, inc)
            && (DrainDue(t) ==> OpenFor(t.rt.activeUses, inc) == ForeignOpen(t, inc))
            && (DrainDue(t) && flying !! ForeignOpen(m.sys, inc) ==>
                  (OpenFor(t.rt.activeUses, inc) == {} <==> ForeignOpen(m.sys, inc) == {}))
  {
    var m := Moves(h, inc, before);
    var t := Moves(m, inc, after);
    ReachedHouse(h, inc, before, |after|);
    StuckAtFirst(m, inc, |after|);
    var stuck := ForeignOpen(m.sys, inc) - UsesIn(InFlight(m, inc));
    HoldsOn(m, inc, after, stuck, InFlight(m, inc), 0);
    WhatHolds(t, inc, stuck, InFlight(m, inc), 0);
    ActsOnlyClose(h, inc, before, after);
    hide Moves, Keyed, FreshUses, AdmissionClosed, ForeignOpen, OpenFor, UsesIn, InFlight, Holds, Opening, DrainDue;
  }

  lemma ActsOnlyClose(h: House, inc: u64, before: seq<Move>, after: seq<Move>)
    requires Opening(h) && Keyed(h.sys.rt) && FreshUses(h.sys.rt, |before| + |after|)
    requires AdmissionClosed(Moves(h, inc, before).sys.rt, inc)
    ensures var m := Moves(h, inc, before);
            var t := Moves(m, inc, after).sys;
            && ForeignOpen(t, inc) <= ForeignOpen(m.sys, inc)
            && (DrainDue(t) ==> OpenFor(t.rt.activeUses, inc) == ForeignOpen(t, inc))
  {
    var m := Moves(h, inc, before);
    MovesAreActs(h, inc, before);
    MovesAreActs(m, inc, after);
    var b, a := AllActs(h, inc, before), AllActs(m, inc, after);
    FewerIds(h.sys.rt, |b| + |a|, |before| + |after|);
    hide Moves, Runs, Keyed, FreshUses, AllActs, AdmissionClosed, ForeignOpen, OpenFor, Fresh, DrainDue;
    CleanupFollowsClosure(h.sys, inc, b, a);
  }

  /* ---- a drain that cannot complete ---- */

  /** The phase is what the open uses call for, and the counter is exact. */
  ghost predicate Counted(s: State, inc: u64)
  {
    Accounted(s) && Exact(s, inc)
  }

  lemma CountedStep(s: Sys, inc: u64, a: Act, n: nat)
    requires Keyed(s.rt) && FreshUses(s.rt, n + 1) && Counted(s.rt, inc) && OpenFor(s.rt.activeUses, inc) != {}
    ensures Counted(Next(s, inc, a).rt, inc)
  {
    NextCalls(s, inc, a);
    var op := OpOf(s, inc, a);
    hide Next, OpOf, Step, Keyed, FreshUses, Accounted, Exact, OpenFor;
    if op.Some? {
      CountStep(s.rt, op.value, n);
      ExactWhileOpen(s.rt, op.value, inc, n);
    }
  }

  lemma CountedMove(h: House, inc: u64, v: Move, stuck: set<u64>, passed: map<nat, Call>, n: nat)
    requires Holds(h, inc, stuck, passed, n + 1) && Counted(h.sys.rt, inc) && stuck != {}
    ensures Counted(MoveStep(h, inc, v).sys.rt, inc)
  {
    MoveIsAct(h, inc, v);
    var acts := ActsOf(h, v);
    hide MoveStep, Next, ActsOf, InFlight, UsesIn, Counted, Keyed, FreshUses, AdmissionClosed, OpenFor, WorksOnOwn;
    if acts != [] {
      CountedStep(h.sys, inc, acts[0], n);
    }
  }

  lemma {:induction false} CountedOn(h: House, inc: u64, vs: seq<Move>, stuck: set<u64>, passed: map<nat, Call>)
    requires Holds(h, inc, stuck, passed, |vs|) && Counted(h.sys.rt, inc) && stuck != {}
    ensures Counted(Moves(h, inc, vs).sys.rt, inc)
    decreases |vs|
  {
    if vs != [] {
      HoldsStep(h, inc, vs[0], stuck, passed, |vs| - 1);
      CountedMove(h, inc, vs[0], stuck, passed, |vs| - 1);
      hide MoveStep, Holds, Counted;
      CountedOn(MoveStep(h, inc, vs[0]), inc, vs[1..], stuck, passed);
    }
  }

  lemma CountedMeans(s: State, inc: u64, u: u64)
    requires Counted(s, inc) && u in OpenFor(s.activeUses, inc)
    ensures inc in s.drains && s.drains[inc].phase == ActiveUseRemaining
    ensures s.activeUseCount == |OpenUses(s.activeUses)| && u in OpenUses(s.activeUses)
  {
  }

  lemma StaysActive(m: House, inc: u64, after: seq<Move>, u: u64)
    requires Keyed(m.sys.rt) && FreshUses(m.sys.rt, |after|) && WorksOnOwn(m.sys) && AdmissionClosed(m.sys.rt, inc)
    requires Counted(m.sys.rt, inc) && u in ForeignOpen(m.sys, inc) - UsesIn(InFlight(m, inc))
    ensures var t := Moves(m, inc, after).sys;
            Counted(t.rt, inc) && u in OpenFor(t.rt.activeUses, inc)
  {
    StuckAtFirst(m, inc, |after|);
    hide Moves, ForeignOpen, OpenFor, UsesIn, InFlight, Counted, Stuck, Keyed, FreshUses, WorksOnOwn, AdmissionClosed,
      Holds;
    var stuck := ForeignOpen(m.sys, inc) - UsesIn(InFlight(m, inc));
    HoldsOn(m, inc, after, stuck, InFlight(m, inc), 0);
    CountedOn(m, inc, after, stuck, InFlight(m, inc));
    WhatHolds(Moves(m, inc, after), inc, stuck, InFlight(m, inc), 0);
    ForeignIsOpen(Moves(m, inc, after).sys, inc, u);
  }

  /** A use of another caller that is open at the drain request, with no release of it in flight, is never
      closed again: in every continuation it stays open and keeps its place in the counter, and the drain
      stays at ACTIVE_USE_REMAINING, whatever is acknowledged or requested. */
  lemma DrainNeverCompletes(h: House, inc: u64, before: seq<Move>, after: seq<Move>, u: u64)
    requires Opening(h) && Keyed(h.sys.rt) && Accounted(h.sys.rt) && FreshUses(h.sys.rt, |before| + 1 + |after|)
    requires RequestDrain(Moves(h, inc, before).sys.rt, inc).1.Done?
    requires u in ForeignOpen(Moves(h, inc, before).sys, inc) - UsesIn(InFlight(Moves(h, inc, before), inc))
    ensures var m := MoveStep(Moves(h, inc, before), inc, Elsewhere(RequestDrainFirst));
            var t := Moves(m, inc, after).sys.rt;
            && u in OpenFor(t.activeUses, inc) && inc in t.drains && t.drains[inc].phase == ActiveUseRemaining
            && t.activeUseCount == |OpenUses(t.activeUses)| && u in OpenUses(t.activeUses)
  {
    var p := Moves(h, inc, before);
    var m := MoveStep(p, inc, Elsewhere(RequestDrainFirst));
    ReachedHouse(h, inc, before, |after| + 1);
    AccountedOn(h, inc, before, |after| + 1);
    hide Moves, Opening, RequestDrain, ForeignOpen, OpenFor, OpenUses, UsesIn, InFlight, Counted, Keyed, FreshUses,
      WorksOnOwn, AdmissionClosed, Accounted;
    Requested(p, inc, u, |after|);
    hide MoveStep;
    StaysActive(m, inc, after, u);
    CountedMeans(Moves(m, inc, after).sys.rt, inc, u);
  }

  lemma ForeignIsOpen(s: Sys, inc: u64, u: u64)
    requires u in ForeignOpen(s, inc)
    ensures u in OpenFor(s.rt.activeUses, inc)
  {
  }

  /** The state right after the request. */
  lemma Requested(p: House, inc: u64, u: u64, n: nat)
    requires Keyed(p.sys.rt) && FreshUses(p.sys.rt, n + 1) && WorksOnOwn(p.sys) && Accounted(p.sys.rt)
    requires RequestDrain(p.sys.rt, inc).1.Done?
    requires u in ForeignOpen(p.sys, inc) - UsesIn(InFlight(p, inc))
    ensures var m := MoveStep(p, inc, Elsewhere(RequestDrainFirst));
            && Keyed(m.sys.rt) && FreshUses(m.sys.rt, n) && WorksOnOwn(m.sys) && AdmissionClosed(m.sys.rt, inc)
            && Counted(m.sys.rt, inc) && u in ForeignOpen(m.sys, inc) - UsesIn(InFlight(m, inc))
  {
    var s, op := p.sys.rt, OpRequestDrain(inc);
    StepRequestDrain(s, op);
    KeyedStep(s, op);
    CountStep(s, op, n);
    RequestIsExact(s, inc);
    RequestKeepsUses(s, inc);
    OwnStep(p.sys, inc, RequestDrainFirst);
    var m := MoveStep(p, inc, Elsewhere(RequestDrainFirst));
    assert m.sys.rt == RequestDrain(s, inc).0 && m.sys.mine == p.sys.mine && m.calls == p.calls;
    hide MoveStep, Next, RequestDrain, Step, Keyed, FreshUses, Accounted, WorksOnOwn, OpenFor, UsesIn;
  }

  /* ---- answers ---- */

  /** Every later answer that reports success for the incarnation belongs to a call that had passed. */
  ghost predicate LateAnswers(h: House, inc: u64, from: nat, passed: map<nat, Call>)
  {
    && AdmissionClosed(h.sys.rt, inc) && from <= |h.answers| && InFlight(h, inc).Items <= passed.Items
    && forall k :: from <= k < |h.answers| && h.answers[k].call.target == inc && h.answers[k].ret.Done? ==>
         (h.answers[k].sid, h.answers[k].call) in passed.Items
  }

  lemma LateStep(h: House, inc: u64, v: Move, from: nat, passed: map<nat, Call>)
    requires LateAnswers(h, inc, from, passed) && Keyed(h.sys.rt)
    ensures LateAnswers(MoveStep(h, inc, v), inc, from, passed) && Keyed(MoveStep(h, inc, v).sys.rt)
  {
    FlightShrinks(h, inc, v);
    StillClosed(h, inc, v);
    if v.CallRelease? && At(h, v.sid, Passed) && h.calls[v.sid].target == inc {
      assert (v.sid, h.calls[v.sid]) in InFlight(h, inc).Items;
    }
    hide Next, Release, IncarnationFenced, AdmissionClosed, Keyed, InFlight;
  }

  lemma StillClosed(h: House, inc: u64, v: Move)
    requires AdmissionClosed(h.sys.rt, inc) && Keyed(h.sys.rt)
    ensures AdmissionClosed(MoveStep(h, inc, v).sys.rt, inc) && Keyed(MoveStep(h, inc, v).sys.rt)
  {
    MoveIsAct(h, inc, v);
    var acts := ActsOf(h, v);
    if acts != [] {
      NextCalls(h.sys, inc, acts[0]);
      var op := OpOf(h.sys, inc, acts[0]);
      hide MoveStep, Next, ActsOf, OpOf, Step, Keyed, AdmissionClosed;
      if op.Some? {
        ClosedStep(h.sys.rt, op.value, inc);
      }
    }
  }

  lemma {:induction false} LateOn(h: House, inc: u64, vs: seq<Move>, from: nat, passed: map<nat, Call>)
    requires LateAnswers(h, inc, from, passed) && Keyed(h.sys.rt)
    ensures LateAnswers(Moves(h, inc, vs), inc, from, passed)
    decreases |vs|
  {
    if vs != [] {
      LateStep(h, inc, vs[0], from, passed);
      hide MoveStep, LateAnswers, Keyed;
      LateOn(MoveStep(h, inc, vs[0]), inc, vs[1..], from, passed);
    }
  }

  /** After admission was fenced a session's release for the incarnation is accepted only if it had read its
      guards before: in every interleaving every other one is answered with an error. */
  lemma LateReleasesRefused(h: House, inc: u64, vs: seq<Move>, k: nat)
    requires AdmissionClosed(h.sys.rt, inc) && Keyed(h.sys.rt)
    requires |h.answers| <= k < |Moves(h, inc, vs).answers|
    ensures var a := Moves(h, inc, vs).answers[k];
            a.call.target == inc && a.ret.Done? ==> a.sid in InFlight(h, inc) && InFlight(h, inc)[a.sid] == a.call
  {
    hide Moves, AdmissionClosed, Keyed;
    LateOn(h, inc, vs, |h.answers|, InFlight(h, inc));
    var a := Moves(h, inc, vs).answers[k];
    hide InFlight;
    if a.call.target == inc && a.ret.Done? {
      assert (a.sid, a.call) in InFlight(h, inc).Items;
    }
  }

  /** That it is accepted then is no accident: with the guards read just before a drain request, the release
      of an open use succeeds under the fence. */
  lemma EarlyGuardReleases(h: House, inc: u64, sid: nat, now: u64)
    requires Accounted(h.sys.rt) && RequestDrain(h.sys.rt, inc).1.Done? && At(h, sid, Passed)
    requires h.calls[sid].target == inc && h.calls[sid].use in OpenFor(h.sys.rt.activeUses, inc)
    ensures var m := MoveStep(h, inc, Elsewhere(RequestDrainFirst));
            var t := MoveStep(m, inc, CallRelease(sid, now));
            && AdmissionClosed(m.sys.rt, inc) && |t.answers| == |h.answers| + 1
            && t.answers[|h.answers|] == Answer(sid, h.calls[sid], Done(h.calls[sid].use))
  {
    RequestKeepsUses(h.sys.rt, inc);
    RequestCloses(h.sys.rt, inc);
    var m := MoveStep(h, inc, Elsewhere(RequestDrainFirst));
    assert m.sys.rt == RequestDrain(h.sys.rt, inc).0 && m.calls == h.calls && m.answers == h.answers;
    hide MoveStep, RequestDrain, AdmissionClosed, Accounted, OpenFor;
    PassedReleases(m, inc, sid, now);
  }

  /** The runtime itself does not look at the fence. */
  lemma PassedReleases(h: House, inc: u64, sid: nat, now: u64)
    requires Accounted(h.sys.rt) && At(h, sid, Passed)
    requires h.calls[sid].use in OpenFor(h.sys.rt.activeUses, h.calls[sid].target)
    ensures var t := MoveStep(h, inc, CallRelease(sid, now));
            && |t.answers| == |h.answers| + 1
            && t.answers[|h.answers|] == Answer(sid, h.calls[sid], Done(h.calls[sid].use))
  {
    var c := h.calls[sid];
    UnderflowUnreachable(h.sys.rt, c.use, c.target, ClosingCall(c, now));
    hide Release, Accounted;
    assert MoveStep(h, inc, CallRelease(sid, now)) == CallStep(h, sid, now);
  }

  lemma RequestCloses(s: State, inc: u64)
    requires RequestDrain(s, inc).1.Done? && Accounted(s)
    ensures AdmissionClosed(RequestDrain(s, inc).0, inc) && Accounted(RequestDrain(s, inc).0)
  {
    assert SameUses(s, RequestDrain(s, inc).0) && RequestDrain(s, inc).0.options == s.options;
    hide Remaining, SameEvidence, Continues, KeepsClosed, AddsNoCurrent, KeepsAttempts, SameActivations;
  }
}
