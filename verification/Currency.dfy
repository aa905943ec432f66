/** Who is current: one incarnation of an engine, and one activation record of a slot
    (runtime.cpp:140-175, 188-200, 442-498, 607-640). */
module Currency {
  import opened Prelude
  import opened Errors
  import opened Records
  import opened RuntimeState
  import opened RuntimeRuns

  /* ---- one current incarnation of an engine ---- */

  /** No two current incarnations belong to one engine. */
  ghost predicate OneCurrent(s: State)
  {
    forall j, k :: j in s.incarnations && k in s.incarnations && j != k
                   && s.incarnations[j].isCurrent && s.incarnations[k].isCurrent ==>
                     s.incarnations[j].engineId != s.incarnations[k].engineId
  }

  /** No incarnation of the engine is current, apart from those in `except`. */
  predicate Vacant(s: State, engineId: u64, except: set<u64>)
  {
    forall k :: k in s.incarnations && k !in except && s.incarnations[k].isCurrent ==>
      s.incarnations[k].engineId != engineId
  }

  /** What nobody checks before an incarnation becomes current. */
  predicate Careful(s: State, op: Op)
  {
    match op
    case OpRegister(inc, permitId, _) =>
      RegisterCheck(s, inc, permitId).Pass? && !EngineServed(s, inc.engineId) ==>
        Vacant(s, inc.engineId, {Bump(Bump(s.ids.incarnation))})
    case OpRevalidate(id) => id in s.incarnations ==> Vacant(s, s.incarnations[id].engineId, {id})
    case OpActivate(q, now) =>
      ActivateCheck(s, q, now).Pass? ==> Vacant(s, s.incarnations[q.incarnationId].engineId, {q.incarnationId})
    case OpCommitCutover(rid) =>
      CutoverCheck(s, rid).Pass? ==>
        var p := s.replacements[rid];
        Vacant(s, s.incarnations[p.candidateIncarnation].engineId, {p.oldIncarnation, p.candidateIncarnation})
    case _ => true
  }

  /** t is s, in which id became what it is in t and `gone` stopped being current. */
  lemma BecomesCurrent(s: State, t: State, id: u64, gone: u64)
    requires OneCurrent(s) && t.incarnations.Keys == s.incarnations.Keys + {id} && t.incarnations[id].isCurrent
    requires gone in s.incarnations && gone != id ==> !t.incarnations[gone].isCurrent
    requires forall k :: k in s.incarnations && k != id && k != gone ==> t.incarnations[k] == s.incarnations[k]
    ensures OneCurrent(t) <==> Vacant(s, t.incarnations[id].engineId, {gone, id})
  {
  }

  lemma RegisterIsExact(s: State, inc: Incarnation, permitId: u64, now: u64)
    requires OneCurrent(s)
    ensures OneCurrent(Register(s, inc, permitId, now).0) <==> Careful(s, OpRegister(inc, permitId, now))
  {
    RegisterShape(s, inc, permitId, now);
    var t, id := Register(s, inc, permitId, now).0, Bump(Bump(s.ids.incarnation));
    hide Register, RegisterCheck, EngineServed, KeepsAuthority, SameDefinitions, SameServing, SameEvidence,
      KeepsFences, KeepsAttempts, SameActivations;
    if RegisterCheck(s, inc, permitId).Pass? && !EngineServed(s, inc.engineId) {
      BecomesCurrent(s, t, id, id);
      assert {id} == {id, id};
      hide OneCurrent, Vacant;
    }
  }

  lemma RevalidateIsExact(s: State, id: u64)
    requires OneCurrent(s)
    ensures OneCurrent(Revalidate(s, id).0) <==> Careful(s, OpRevalidate(id))
  {
    RevalidateShape(s, id);
    hide Revalidate, KeepsAuthority, SameDefinitions, SameServing, SameEvidence, KeepsFences, KeepsAttempts,
      SameActivations;
    if id in s.incarnations {
      BecomesCurrent(s, Revalidate(s, id).0, id, id);
      assert {id} == {id, id};
    }
    hide OneCurrent, Vacant;
  }

  lemma ActivateIsExact(s: State, q: Request, now: u64)
    requires OneCurrent(s)
    ensures OneCurrent(Activate(s, q, now).0) <==> Careful(s, OpActivate(q, now))
  {
    ActivateShape(s, q, now);
    hide Activate, ActivateCheck, KeepsAuthority, SameDefinitions, SameServing, SameEvidence, KeepsFences, Continues,
      KeepsAttempts;
    if ActivateCheck(s, q, now).Pass? {
      BecomesCurrent(s, Activate(s, q, now).0, q.incarnationId, q.incarnationId);
      assert {q.incarnationId} == {q.incarnationId, q.incarnationId};
    }
    hide OneCurrent, Vacant;
  }

  lemma CutoverIncarnations(s: State, rid: u64)
    ensures var t := CommitCutover(s, rid).0;
            if CutoverCheck(s, rid).Pass?
            then var p := s.replacements[rid];
                 var incs := DisplaceOld(s, p.oldIncarnation);
                 t.incarnations == incs[p.candidateIncarnation := PromoteOne(incs[p.candidateIncarnation])]
            else t == s
  {
    hide FenceOld, DisplaceOld, PromoteOne, KeepsAuthority, SameUses, SameEvidence, KeepsFences, Continues,
      KeepsClosed, KeepsAttempts, SameActivations;
  }

  lemma CutoverTables(s: State, rid: u64)
    requires CutoverCheck(s, rid).Pass?
    ensures rid in s.replacements && s.replacements[rid].candidateIncarnation in s.incarnations
    ensures var p := s.replacements[rid];
            var was, now := s.incarnations, CommitCutover(s, rid).0.incarnations;
            && now.Keys == was.Keys && now[p.candidateIncarnation].isCurrent
            && now[p.candidateIncarnation].engineId == was[p.candidateIncarnation].engineId
            && (p.oldIncarnation in was && p.oldIncarnation != p.candidateIncarnation ==>
                  !now[p.oldIncarnation].isCurrent)
            && forall k :: k in was && k != p.candidateIncarnation && k != p.oldIncarnation ==> now[k] == was[k]
  {
    CutoverIncarnations(s, rid);
    hide CommitCutover, KeepsAuthority, SameUses, SameEvidence, KeepsFences, Continues, KeepsClosed, KeepsAttempts,
      SameActivations;
  }

  lemma CutoverIsExact(s: State, rid: u64)
    requires OneCurrent(s)
    ensures OneCurrent(CommitCutover(s, rid).0) <==> Careful(s, OpCommitCutover(rid))
  {
    CutoverIncarnations(s, rid);
    hide CommitCutover, CutoverCheck, DisplaceOld, OneCurrent, Vacant, KeepsAuthority, SameUses, SameEvidence,
      KeepsFences, Continues, KeepsClosed, KeepsAttempts, SameActivations;
    if CutoverCheck(s, rid).Pass? {
      CutoverTables(s, rid);
      var p := s.replacements[rid];
      BecomesCurrent(s, CommitCutover(s, rid).0, p.candidateIncarnation, p.oldIncarnation);
    }
  }

  lemma LoadLeavesNoneCurrent(s: State, saved: PersistentState)
    ensures OneCurrent(Load(s, saved))
  {
    LoadFields(s, saved);
    hide Load, SameDrains, KeepsFences, RestoreAll, Table;
    TableIsKeyed(RestoreAll(saved.incarnations), IncarnationKey);
    RestoredNotCurrent(saved.incarnations);
  }

  lemma RestoredNotCurrent(xs: seq<Incarnation>)
    ensures forall i :: i in RestoreAll(xs) ==> !i.isCurrent
  {
  }

  lemma NoneAdded(s: State, t: State)
    requires OneCurrent(s) && AddsNoCurrent(s, t)
    ensures OneCurrent(t)
  {
  }

  /** Exactly four operations can give an engine a second current incarnation, and each of them does so
      exactly when another one was current; every other operation keeps it. */
  lemma CurrencyIsExact(s: State, op: Op)
    requires OneCurrent(s)
    ensures OneCurrent(Step(s, op).0) <==> Careful(s, op)
  {
    hide Step, Register, Revalidate, Activate, CommitCutover, Load, Vacant, RegisterCheck, ActivateCheck, CutoverCheck,
      EngineServed, KeepsAuthority, SameUses, SameDrains, SameDefinitions, SameEvidence, KeepsFences, KeepsClosed,
      Continues, AddsNoCurrent, KeepsAttempts, SameActivations, OneCurrent;
    match op {
      case OpRegister(inc, permitId, now) =>
        StepRegister(s, op);
        RegisterIsExact(s, inc, permitId, now);
      case OpRevalidate(id) =>
        StepRevalidate(s, op);
        RevalidateIsExact(s, id);
      case OpActivate(q, now) =>
        StepActivate(s, op);
        ActivateIsExact(s, q, now);
      case OpCommitCutover(rid) =>
        StepCutover(s, op);
        CutoverIsExact(s, rid);
      case OpLoad(saved) =>
        StepLoad(s, op);
        LoadLeavesNoneCurrent(s, saved);
      case _ => NoneAdded(s, Step(s, op).0);
    }
  }

  ghost predicate AlwaysCareful(s: State, ops: seq<Op>)
    decreases |ops|
  {
    ops == [] || (Careful(s, ops[0]) && AlwaysCareful(Step(s, ops[0]).0, ops[1..]))
  }

  ghost predicate AlwaysOneCurrent(s: State, ops: seq<Op>)
    decreases |ops|
  {
    OneCurrent(s) && (ops == [] || AlwaysOneCurrent(Step(s, ops[0]).0, ops[1..]))
  }

  /** Over whole runs: an engine never has two current incarnations exactly when each of the four
      operations is called while no other incarnation of the engine is current. */
  lemma {:induction false} CurrencyOverRuns(s: State, ops: seq<Op>)
    requires OneCurrent(s)
    ensures AlwaysOneCurrent(s, ops) <==> AlwaysCareful(s, ops)
    decreases |ops|
  {
    if ops != [] {
      var t := Step(s, ops[0]).0;
      CurrencyIsExact(s, ops[0]);
      hide Step, Careful, OneCurrent;
      if OneCurrent(t) {
        CurrencyOverRuns(t, ops[1..]);
      }
    }
  }

  /** Nothing in the runtime makes callers careful: in whatever state, two revalidations leave any two
      incarnations of an engine current together. */
  lemma RevalidationsAccumulate(s: State, a: u64, b: u64)
    requires a in s.incarnations && b in s.incarnations && a != b
    requires s.incarnations[a].engineId == s.incarnations[b].engineId
    ensures !OneCurrent(Run(s, [OpRevalidate(a), OpRevalidate(b)]))
  {
    Revalidated(s, a);
    var t := Step(s, OpRevalidate(a)).0;
    Revalidated(t, b);
    RunTwo(s, OpRevalidate(a), OpRevalidate(b));
    hide Step, Run;
    var u := Step(t, OpRevalidate(b)).0;
    assert u.incarnations[a].isCurrent && u.incarnations[b].isCurrent;
  }

  lemma Revalidated(s: State, id: u64)
    requires id in s.incarnations
    ensures var t := Step(s, OpRevalidate(id)).0;
            && t.incarnations.Keys == s.incarnations.Keys && t.incarnations[id].isCurrent
            && t.incarnations[id].engineId == s.incarnations[id].engineId
            && forall k :: k in s.incarnations && k != id ==> t.incarnations[k] == s.incarnations[k]
  {
    StepRevalidate(s, OpRevalidate(id));
    RevalidateShape(s, id);
    hide Step, Revalidate;
  }

  lemma RunTwo(s: State, a: Op, b: Op)
    ensures Run(s, [a, b]) == Step(Step(s, a).0, b).0
  {
    hide Step;
    assert [a, b][1..] == [b] && [b][1..] == [];
    assert Run(Step(s, a).0, [b]) == Step(Step(s, a).0, b).0;
  }

  /* ---- one current activation record of a slot ---- */

  /** No two current records name one exclusive slot; slot 0 is none. */
  ghost predicate OneCurrentPerSlot(s: State)
  {
    forall a, b :: a in s.activations && b in s.activations && a != b && s.activations[a].current
                   && s.activations[b].current && s.activations[a].slotId != 0 ==>
                     s.activations[a].slotId != s.activations[b].slotId
  }

  /** No current record names the slot, apart from the one that is overwritten. */
  predicate SlotUnrecorded(s: State, slot: u64, overwritten: u64)
  {
    forall a :: a in s.activations && a != overwritten && s.activations[a].current ==> s.activations[a].slotId != slot
  }

  /** An activation that succeeds keeps it exactly when no current record names its slot yet: taking a
      slot over leaves the record of the holder before as it was. */
  lemma SlotIsExact(s: State, q: Request, now: u64)
    requires OneCurrentPerSlot(s) && ActivateCheck(s, q, now).Pass?
    ensures OneCurrentPerSlot(Activate(s, q, now).0) <==>
            (q.slotId != 0 ==> SlotUnrecorded(s, q.slotId, Bump(Bump(s.ids.activation))))
  {
    ActivateShape(s, q, now);
    hide Activate, ActivateCheck, KeepsAuthority, SameDefinitions, SameServing, SameEvidence, KeepsFences, Continues,
      KeepsAttempts;
    RecordedAt(s, Activate(s, q, now).0, Bump(Bump(s.ids.activation)));
    hide OneCurrentPerSlot, SlotUnrecorded;
  }

  lemma RecordedAt(s: State, t: State, id: u64)
    requires OneCurrentPerSlot(s) && id in t.activations && t.activations == s.activations[id := t.activations[id]]
    requires t.activations[id].current
    ensures OneCurrentPerSlot(t) <==>
            (t.activations[id].slotId != 0 ==> SlotUnrecorded(s, t.activations[id].slotId, id))
  {
    assert forall a :: a in s.activations && a != id ==> t.activations[a] == s.activations[a];
  }

  /** Every activation id handed out is at most the counter plus one, and n more fit below 2^64. */
  predicate FreshActivations(s: State, n: nat)
  {
    (forall a :: a in s.activations ==> a <= s.ids.activation + 1) && s.ids.activation + 1 + n < TWO64
  }

  /** No record is lost or changed: in particular its current flag is never cleared. */
  ghost predicate RecordsKept(s: State, t: State)
  {
    forall a :: a in s.activations ==> a in t.activations && t.activations[a] == s.activations[a]
  }

  lemma ActivationStep(s: State, op: Op, n: nat)
    requires FreshActivations(s, n + 1) && !op.OpLoad?
    ensures RecordsKept(s, Step(s, op).0) && FreshActivations(Step(s, op).0, n)
  {
    hide Step, Activate, ActivateCheck, KeepsAuthority, SameUses, SameDrains, SameDefinitions, SameServing,
      SameEvidence, KeepsFences, KeepsClosed, Continues, AddsNoCurrent, KeepsAttempts;
    if op.OpActivate? {
      StepActivate(s, op);
      ActivateShape(s, op.request, op.now);
    }
  }

  /** In every run without load the records of activations stay as they were made. */
  lemma {:induction false} ActivationsKept(s: State, ops: seq<Op>, n: nat)
    requires FreshActivations(s, |ops| + n) && forall op :: op in ops ==> !op.OpLoad?
    ensures RecordsKept(s, Run(s, ops)) && FreshActivations(Run(s, ops), n)
    decreases |ops|
  {
    if ops != [] {
      var t := Step(s, ops[0]).0;
      ActivationStep(s, ops[0], |ops| - 1 + n);
      hide Step, FreshActivations;
      ActivationsKept(t, ops[1..], n);
      KeptTransitive(s, t, Run(t, ops[1..]));
      hide RecordsKept;
    }
  }

  lemma KeptTransitive(s: State, t: State, u: State)
    requires RecordsKept(s, t) && RecordsKept(t, u)
    ensures RecordsKept(s, u)
  {
  }

  lemma SlotTakenTwice(s: State, a: u64, q: Request, now: u64)
    requires FreshActivations(s, 1) && a in s.activations && s.activations[a].current
    requires s.activations[a].slotId == q.slotId != 0 && ActivateCheck(s, q, now).Pass?
    ensures !OneCurrentPerSlot(Activate(s, q, now).0)
  {
    ActivateShape(s, q, now);
    hide Activate, ActivateCheck, KeepsAuthority, SameDefinitions, SameServing, SameEvidence, KeepsFences, Continues,
      KeepsAttempts;
    var t, id := Activate(s, q, now).0, Bump(Bump(s.ids.activation));
    assert a != id && t.activations[a] == s.activations[a] && t.activations[id].current;
  }

  /** Once a record of a slot was current, the next activation of that slot that succeeds, however much
      later in a run without load, leaves two current records of it. */
  lemma SecondActivationDoubles(s: State, ops: seq<Op>, a: u64, q: Request, now: u64)
    requires FreshActivations(s, |ops| + 1) && forall op :: op in ops ==> !op.OpLoad?
    requires a in s.activations && s.activations[a].current && s.activations[a].slotId == q.slotId != 0
    requires ActivateCheck(Run(s, ops), q, now).Pass?
    ensures !OneCurrentPerSlot(Activate(Run(s, ops), q, now).0)
  {
    ActivationsKept(s, ops, 1);
    hide Run, Activate, ActivateCheck, FreshActivations, OneCurrentPerSlot;
    SlotTakenTwice(Run(s, ops), a, q, now);
  }

  /** And the next one can come at once: a request with a slot that succeeds also succeeds when it is
      repeated, and then the slot has two current records. */
  lemma RepeatedActivation(s: State, q: Request, now: u64)
    requires FreshActivations(s, 2) && ActivateCheck(s, q, now).Pass? && q.slotId != 0
    ensures var t := Activate(s, q, now).0;
            ActivateCheck(t, q, now).Pass? && !OneCurrentPerSlot(Activate(t, q, now).0)
  {
    var t, id := Activate(s, q, now).0, Bump(Bump(s.ids.activation));
    PassesAgain(s, q, now);
    ActivateShape(s, q, now);
    hide Activate, ActivateCheck, OneCurrentPerSlot;
    SlotTakenTwice(t, id, q, now);
  }

  lemma PassesAgain(s: State, q: Request, now: u64)
    requires ActivateCheck(s, q, now).Pass? && q.slotId != 0
    ensures ActivateCheck(Activate(s, q, now).0, q, now).Pass?
  {
    var t := Activate(s, q, now).0;
    var i := s.incarnations[q.incarnationId];
    ActivateShape(s, q, now);
    assert t.slots == s.slots[q.slotId := i.incarnationId] && t.authority == s.authority by {
      hide ActivateCheck, KeepsAuthority, SameDefinitions, SameServing, SameEvidence, KeepsFences, Continues,
        KeepsAttempts;
    }
    hide Activate, KeepsAuthority, SameServing, KeepsFences, Continues, KeepsAttempts;
    if q.profileId != 0 {
      assert OutlookOf(t, t.profiles[q.profileId], t.incarnations[q.incarnationId], now)
          == OutlookOf(s, s.profiles[q.profileId], i, now);
    }
    hide OutlookOf;
  }
}
