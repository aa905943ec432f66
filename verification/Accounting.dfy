/** Active uses and drains over whole runs (runtime.cpp:500-591). */
module Accounting {
  import opened Prelude
  import opened Errors
  import opened Records
  import opened RuntimeState
  import opened RuntimeRuns

  /* ---- sets of open uses ---- */

  lemma OpenAfterAcquire(uses: map<u64, Use>, u: u64, r: Use, id: u64)
    requires u !in uses && !r.released
    ensures u !in OpenUses(uses) && OpenUses(uses[u := r]) == OpenUses(uses) + {u}
    ensures OpenFor(uses[u := r], id) == OpenFor(uses, id) + if r.incarnationId == id then {u} else {}
  {
  }

  lemma OpenAfterRelease(uses: map<u64, Use>, u: u64, c: Closing, id: u64)
    requires u in uses
    ensures OpenUses(uses[u := CloseUse(uses[u], c)]) == OpenUses(uses) - {u}
    ensures OpenFor(uses[u := CloseUse(uses[u], c)], id) == OpenFor(uses, id) - {u}
  {
  }

  lemma Shrinks<T>(a: set<T>, b: set<T>)
    requires a <= b
    ensures |a| <= |b|
  {
    assert b == a + (b - a);
  }

  /* ---- the count ---- */

  /** The counter is exact and within the limit. */
  predicate Accounted(s: State)
  {
    s.activeUseCount == |OpenUses(s.activeUses)| <= s.options.maxActiveUses
  }

  /** Every id handed out is at most the counter plus one, and n more ids fit below 2^64. */
  predicate FreshUses(s: State, n: nat)
  {
    (forall u :: u in s.activeUses ==> u <= s.ids.use + 1) && s.ids.use + 1 + n < TWO64
  }

  lemma AcquireShape(s: State, id: u64, w: Wanted, now: u64)
    requires AcquireCheck(s, id, w, now).Pass?
    ensures id in s.incarnations && s.activeUseCount < s.options.maxActiveUses
    ensures var t := Acquire(s, id, w, now).0;
            && t.activeUses == s.activeUses[Bump(Bump(s.ids.use)) :=
                 AdmitUse(s.incarnations[id], w, now)]
            && t.activeUseCount == s.activeUseCount + 1 && t.ids.use == Bump(s.ids.use) && t.options == s.options
  {
    hide OutlookOf, SameEvidence, Continues, SameDrains, AddsNoCurrent, KeepsAttempts, SameActivations;
  }

  lemma AcquireRefused(s: State, id: u64, w: Wanted, now: u64)
    requires AcquireCheck(s, id, w, now).Fail?
    ensures Acquire(s, id, w, now).0 == s
  {
    hide AcquireCheck, SameEvidence, KeepsFences, Continues, SameDrains, AddsNoCurrent, KeepsAttempts, SameActivations;
  }

  lemma AcquireCounts(s: State, id: u64, w: Wanted, now: u64, n: nat)
    requires Accounted(s) && FreshUses(s, n + 1)
    ensures var t := Acquire(s, id, w, now).0; Accounted(t) && FreshUses(t, n)
  {
    hide Acquire, AcquireCheck, OpenUses, OpenFor, SameEvidence, KeepsFences, Continues, SameDrains, AddsNoCurrent,
      KeepsAttempts, SameActivations;
    if AcquireCheck(s, id, w, now).Pass? {
      AcquireShape(s, id, w, now);
      var r := AdmitUse(s.incarnations[id], w, now);
      OpenAfterAcquire(s.activeUses, s.ids.use + 2, r, id);
    } else {
      AcquireRefused(s, id, w, now);
    }
  }

  lemma ReleaseShape(s: State, use: u64, id: u64, c: Closing)
    requires ReleaseCheck(s, use, id).Pass?
    ensures use in s.activeUses && !s.activeUses[use].released && s.activeUses[use].incarnationId == id
    ensures var r := Release(s, use, id, c); var t := r.0;
            && t.activeUses == s.activeUses[use := CloseUse(s.activeUses[use], c)]
            && t.ids == s.ids && t.options == s.options
            && (s.activeUseCount > 0 ==>
                  && t.activeUseCount == s.activeUseCount - 1 && r.1 == Done(use)
                  && t.drains == ReleaseDrain(s.drains, true, id, Remaining(t.activeUses, id)))
  {
    hide ReleaseDrain, Remaining, SameEvidence, Continues, AddsNoCurrent, KeepsAttempts, SameActivations;
  }

  lemma ReleaseRefused(s: State, use: u64, id: u64, c: Closing)
    requires ReleaseCheck(s, use, id).Fail?
    ensures Release(s, use, id, c) == (s, Threw(ReleaseCheck(s, use, id).error))
  {
    hide ReleaseCheck, ReleaseDrain, Remaining, SameEvidence, KeepsFences, Continues, AddsNoCurrent, KeepsAttempts,
      SameActivations;
  }

  lemma ReleaseCounts(s: State, use: u64, id: u64, c: Closing, n: nat)
    requires Accounted(s) && FreshUses(s, n + 1)
    ensures var t := Release(s, use, id, c).0; Accounted(t) && FreshUses(t, n)
    ensures ReleaseCheck(s, use, id).Pass? ==> Release(s, use, id, c).1 == Done(use)
  {
    hide Release, ReleaseDrain, Remaining, SameEvidence, KeepsFences, Continues, AddsNoCurrent, KeepsAttempts,
      SameActivations;
    if ReleaseCheck(s, use, id).Pass? {
      ReleaseShape(s, use, id, c);
      OpenAfterRelease(s.activeUses, use, c, id);
      assert use in OpenUses(s.activeUses);
    } else {
      ReleaseRefused(s, use, id, c);
    }
  }

  lemma OpenAfterReuse(uses: map<u64, Use>, u: u64, r: Use)
    requires !r.released
    ensures |OpenUses(uses[u := r])| == |OpenUses(uses)| + if u in OpenUses(uses) then 0 else 1
  {
    if u in OpenUses(uses) {
      assert OpenUses(uses[u := r]) == OpenUses(uses);
    } else {
      assert OpenUses(uses[u := r]) == OpenUses(uses) + {u};
    }
    hide OpenUses;
  }

  /** Why the theorems ask for fresh ids: an admission keeps the count exact exactly when the id that
      the wrapping counter yields is not that of a use that is still open. */
  lemma AdmissionIsExact(s: State, id: u64, w: Wanted, now: u64)
    requires Accounted(s) && AcquireCheck(s, id, w, now).Pass?
    ensures Accounted(Acquire(s, id, w, now).0) <==>
            Bump(Bump(s.ids.use)) !in OpenUses(s.activeUses)
  {
    AcquireShape(s, id, w, now);
    OpenAfterReuse(s.activeUses, Bump(Bump(s.ids.use)),
      AdmitUse(s.incarnations[id], w, now));
    hide Acquire, AcquireCheck, OpenUses, OpenFor, SameEvidence, SameDefinitions, KeepsFences, Continues, SameDrains,
      AddsNoCurrent, KeepsAttempts, SameActivations;
  }

  lemma CountStep(s: State, op: Op, n: nat)
    requires Accounted(s) && FreshUses(s, n + 1) && !op.OpLoad?
    ensures var t := Step(s, op).0; Accounted(t) && FreshUses(t, n)
  {
    if op.OpAcquire? {
      hide *;
      StepAcquire(s, op);
      AcquireCounts(s, op.id, op.w, op.now, n);
    } else if op.OpRelease? {
      hide *;
      StepRelease(s, op);
      ReleaseCounts(s, op.use, op.id, op.closing, n);
    } else {
      hide Step;
    }
  }

  /** In every run the counter equals the number of open uses and respects the limit. */
  lemma {:induction false} CountIsExact(s: State, ops: seq<Op>)
    requires Accounted(s) && FreshUses(s, |ops|) && forall op :: op in ops ==> !op.OpLoad?
    ensures Accounted(Run(s, ops)) && FreshUses(Run(s, ops), 0)
    decreases |ops|
  {
    if ops != [] {
      CountStep(s, ops[0], |ops| - 1);
      hide Step, Accounted, FreshUses;
      CountIsExact(Step(s, ops[0]).0, ops[1..]);
    }
  }

  /** The states a run may start from: no use was ever admitted. A newly constructed runtime is one,
      with or without definitions, and load leads from one to another. */
  predicate NothingAdmitted(s: State)
  {
    s.activeUses == map[] && s.activeUseCount == 0 && s.ids.use <= RESUMED
  }

  lemma StartIsAccounted(options: Options, s: State, saved: PersistentState, n: nat)
    requires RESUMED + 1 + n < TWO64
    ensures NothingAdmitted(Initial(options))
    ensures NothingAdmitted(s) ==>
              Accounted(s) && FreshUses(s, n) && UsesKnown(s) && NothingAdmitted(Load(s, saved))
  {
    hide Table, EvidenceTable, RestoreAll;
  }

  /** The underflow branch of release cannot be taken: a release does what its three checks say. */
  lemma UnderflowUnreachable(s: State, use: u64, id: u64, c: Closing)
    requires Accounted(s)
    ensures Release(s, use, id, c).1 ==
            match ReleaseCheck(s, use, id)
            case Pass => Done(use)
            case Fail(code) => Threw(code)
  {
    hide Release;
    if ReleaseCheck(s, use, id).Pass? {
      ReleaseShape(s, use, id, c);
      assert use in OpenUses(s.activeUses);
    } else {
      ReleaseRefused(s, use, id, c);
    }
  }

  predicate Released(s: State, use: u64)
  {
    use in s.activeUses && s.activeUses[use].released
  }

  lemma ReleaseKeepsReleased(s: State, u: u64, id: u64, c: Closing, use: u64)
    requires Released(s, use)
    ensures Released(Release(s, u, id, c).0, use) && Release(s, u, id, c).0.ids == s.ids
    ensures forall v :: v in Release(s, u, id, c).0.activeUses ==> v in s.activeUses
  {
    hide Release, ReleaseCheck, ReleaseDrain, Remaining, SameEvidence, KeepsFences, Continues, AddsNoCurrent,
      KeepsAttempts, SameActivations;
    if ReleaseCheck(s, u, id).Pass? {
      ReleaseShape(s, u, id, c);
    } else {
      ReleaseRefused(s, u, id, c);
    }
  }

  lemma AcquireKeepsReleased(s: State, id: u64, w: Wanted, now: u64, use: u64, n: nat)
    requires FreshUses(s, n + 1) && Released(s, use)
    ensures var t := Acquire(s, id, w, now).0; FreshUses(t, n) && Released(t, use)
  {
    hide Acquire, AcquireCheck, SameEvidence, KeepsFences, Continues, SameDrains, AddsNoCurrent, KeepsAttempts,
      SameActivations;
    if AcquireCheck(s, id, w, now).Pass? {
      AcquireShape(s, id, w, now);
    } else {
      AcquireRefused(s, id, w, now);
    }
  }

  lemma ReleasedStep(s: State, op: Op, use: u64, n: nat)
    requires FreshUses(s, n + 1) && Released(s, use) && !op.OpLoad?
    ensures Released(Step(s, op).0, use) && FreshUses(Step(s, op).0, n)
  {
    hide Step, Acquire, Release;
    if op.OpAcquire? {
      StepAcquire(s, op);
      AcquireKeepsReleased(s, op.id, op.w, op.now, use, n);
    } else if op.OpRelease? {
      StepRelease(s, op);
      ReleaseKeepsReleased(s, op.use, op.id, op.closing, use);
    }
  }

  /** A use is released at most once: after it was, every later release of it is refused. */
  lemma {:induction false} ReleasedOnce(s: State, ops: seq<Op>, use: u64, id: u64, c: Closing)
    requires FreshUses(s, |ops|) && Released(s, use) && forall op :: op in ops ==> !op.OpLoad?
    ensures Release(Run(s, ops), use, id, c) == (Run(s, ops), Threw(DuplicateRelease))
    decreases |ops|
  {
    if ops != [] {
      ReleasedStep(s, ops[0], use, |ops| - 1);
      hide Step, Released, FreshUses;
      ReleasedOnce(Step(s, ops[0]).0, ops[1..], use, id, c);
    }
  }

  /* ---- the count, split by incarnation ---- */

  /** The open uses of the incarnations listed in `order`, added up. */
  ghost function Total(uses: map<u64, Use>, order: seq<u64>): nat
  {
    if order == [] then 0 else |OpenFor(uses, order[0])| + Total(uses, order[1..])
  }

  function OpenIn(uses: map<u64, Use>, order: seq<u64>): set<u64>
  {
    set u | u in uses && !uses[u].released && uses[u].incarnationId in order
  }

  lemma OpenSplits(uses: map<u64, Use>, head: u64, rest: seq<u64>)
    requires head !in rest
    ensures OpenIn(uses, [head] + rest) == OpenFor(uses, head) + OpenIn(uses, rest)
    ensures OpenFor(uses, head) !! OpenIn(uses, rest)
  {
  }

  lemma {:induction false} TotalIsUnion(uses: map<u64, Use>, order: seq<u64>, all: set<u64>)
    requires Enumerates(order, all)
    ensures Total(uses, order) == |OpenIn(uses, order)|
    decreases |order|
  {
    if order != [] {
      assert order == [order[0]] + order[1..];
      EnumerationTail(order, all);
      OpenSplits(uses, order[0], order[1..]);
      TotalIsUnion(uses, order[1..], all - {order[0]});
      hide OpenFor, OpenIn, Enumerates;
    }
  }

  /** Each use belongs to an incarnation of the table. */
  ghost predicate UsesKnown(s: State)
  {
    forall u :: u in s.activeUses ==> s.activeUses[u].incarnationId in s.incarnations
  }

  lemma AcquireKnows(s: State, id: u64, w: Wanted, now: u64)
    requires Keyed(s) && UsesKnown(s)
    ensures UsesKnown(Acquire(s, id, w, now).0)
  {
    assert Continues(s, Acquire(s, id, w, now).0);
    hide Acquire, AcquireCheck, SameEvidence, SameDefinitions, SameDrains, KeepsFences, KeepsAuthority,
      AddsNoCurrent, KeepsAttempts, SameActivations;
    if AcquireCheck(s, id, w, now).Pass? {
      AcquireShape(s, id, w, now);
    } else {
      AcquireRefused(s, id, w, now);
    }
  }

  lemma ReleaseKnows(s: State, use: u64, id: u64, c: Closing)
    requires UsesKnown(s)
    ensures UsesKnown(Release(s, use, id, c).0)
  {
    assert Continues(s, Release(s, use, id, c).0);
    hide Release, ReleaseCheck, SameEvidence, SameDefinitions, KeepsClosed, KeepsFences, KeepsAuthority,
      AddsNoCurrent, KeepsAttempts, SameActivations;
    if ReleaseCheck(s, use, id).Pass? {
      ReleaseShape(s, use, id, c);
    } else {
      ReleaseRefused(s, use, id, c);
    }
  }

  lemma StillKnown(s: State, t: State)
    requires UsesKnown(s) && t.activeUses == s.activeUses && s.incarnations.Keys <= t.incarnations.Keys
    ensures UsesKnown(t)
  {
  }

  lemma RegistrationGrows(s: State, op: Op)
    requires op.OpRegister? || op.OpMarkRunning? || op.OpRevalidate?
    ensures s.incarnations.Keys <= Step(s, op).0.incarnations.Keys
  {
    hide Step, Register, MarkRunning, Revalidate, SameUses, SameDrains, SameEvidence, SameDefinitions, KeepsClosed,
      KeepsFences, KeepsAuthority, KeepsAttempts, SameActivations;
    if op.OpRegister? {
      StepRegister(s, op);
      RegisterShape(s, op.inc, op.permitId, op.now);
    } else if op.OpMarkRunning? {
      StepMarkRunning(s, op);
      MarkRunningShape(s, op.id, op.now);
    } else {
      StepRevalidate(s, op);
      RevalidateShape(s, op.id);
    }
  }

  lemma KnownStep(s: State, op: Op)
    requires Keyed(s) && UsesKnown(s) && !op.OpLoad?
    ensures UsesKnown(Step(s, op).0)
  {
    hide Step, Acquire, Release, Keyed, UsesKnown, Declines, SameDrains, SameEvidence, SameDefinitions, KeepsClosed,
      KeepsFences, KeepsAuthority, AddsNoCurrent, KeepsAttempts, SameActivations;
    if op.OpAcquire? {
      StepAcquire(s, op);
      AcquireKnows(s, op.id, op.w, op.now);
    } else if op.OpRelease? {
      StepRelease(s, op);
      ReleaseKnows(s, op.use, op.id, op.closing);
    } else {
      if op.OpRegister? || op.OpMarkRunning? || op.OpRevalidate? {
        RegistrationGrows(s, op);
      }
      StillKnown(s, Step(s, op).0);
    }
  }

  lemma {:induction false} KnownRun(s: State, ops: seq<Op>)
    requires Keyed(s) && UsesKnown(s) && forall op :: op in ops ==> !op.OpLoad?
    ensures UsesKnown(Run(s, ops))
    decreases |ops|
  {
    if ops != [] {
      KeyedStep(s, ops[0]);
      KnownStep(s, ops[0]);
      hide Step, Keyed, UsesKnown;
      KnownRun(Step(s, ops[0]).0, ops[1..]);
    }
  }

  /** In every run the counter is the sum of the open uses of all incarnations of the table, in whatever
      order they are listed. */
  lemma CountIsSum(s: State, ops: seq<Op>, order: seq<u64>)
    requires Keyed(s) && UsesKnown(s) && Accounted(s) && FreshUses(s, |ops|)
    requires forall op :: op in ops ==> !op.OpLoad?
    requires Enumerates(order, Run(s, ops).incarnations.Keys)
    ensures Run(s, ops).activeUseCount == Total(Run(s, ops).activeUses, order)
  {
    var t := Run(s, ops);
    CountIsExact(s, ops);
    KnownRun(s, ops);
    hide Run, FreshUses;
    TotalIsUnion(t.activeUses, order, t.incarnations.Keys);
    assert OpenUses(t.activeUses) == OpenIn(t.activeUses, order) by {
      assert forall u :: u in t.activeUses ==> t.activeUses[u].incarnationId in t.incarnations.Keys;
    }
  }
}
