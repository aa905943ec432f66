/** Exclusive slots (runtime.cpp:459-480): who may take one, and how one is lost. */
module Slots {
  import opened Prelude
  import opened Errors
  import opened Records
  import opened RuntimeState
  import opened RuntimeRuns

  /** The incarnation is unknown, fenced, lost, failed, retired, or waits to be confirmed. */
  predicate Dead(s: State, id: u64)
  {
    id in s.incarnations ==>
      var h := s.incarnations[id].state;
      || h.health in {FencedHealth, LostHealth}
      || h.lifecycle in {Lost, Failed, Retired}
      || h.recovery in {Revalidating, AwaitingAuthority}
  }

  /** The slot is nobody's, is already held by this incarnation, or its holder is dead. */
  predicate MayTake(s: State, slot: u64, id: u64)
  {
    slot !in s.slots || s.slots[slot] in {0, id} || Dead(s, s.slots[slot])
  }

  /** A request that would pass without a slot passes with one exactly when the incarnation may take it;
      otherwise it is told of the conflict. */
  lemma SlotVerdict(s: State, q: Request, now: u64)
    requires Keyed(s) && q.slotId != 0 && ActivateCheck(s, q.(slotId := 0), now).Pass?
    ensures ActivateCheck(s, q, now) ==
            if MayTake(s, q.slotId, q.incarnationId) then Pass else Fail(ActivationConflict)
  {
    hide OutlookOf;
  }

  lemma ActivateSlots(s: State, q: Request, now: u64)
    ensures Activate(s, q, now).0.slots ==
            if ActivateCheck(s, q, now).Pass? && q.slotId != 0
            then s.slots[q.slotId := s.incarnations[q.incarnationId].incarnationId]
            else s.slots
    ensures ActivateCheck(s, q, now).Pass? && Keyed(s) ==>
              q.incarnationId in s.incarnations && s.incarnations[q.incarnationId].incarnationId == q.incarnationId
  {
    ActivateShape(s, q, now);
    hide Activate, ActivateCheck;
  }

  predicate Holds(s: State, slot: u64, id: u64)
  {
    slot in s.slots && s.slots[slot] == id
  }

  /** What takes the slot away: an activation of another incarnation while the holder is dead, or an epoch
      advance that frees every slot. */
  ghost predicate TakesAway(s: State, op: Op, slot: u64, id: u64)
  {
    || (op.OpActivate? && op.request.slotId == slot && op.request.incarnationId != id && Dead(s, id)
        && ActivateCheck(s, op.request, op.now).Pass?)
    || (s.epoch < Step(s, op).0.epoch && Step(s, op).0.slots == map[])
  }

  lemma WithoutSlot(s: State, q: Request, now: u64)
    requires ActivateCheck(s, q, now).Pass?
    ensures ActivateCheck(s, q.(slotId := 0), now).Pass?
  {
    hide OutlookOf, SlotTaken;
  }

  lemma SlotStep(s: State, op: Op, slot: u64, id: u64)
    requires Keyed(s) && Holds(s, slot, id) && slot != 0 && id != 0 && !op.OpLoad?
    ensures Holds(Step(s, op).0, slot, id) || TakesAway(s, op, slot, id)
  {
    hide Step, Activate, ActivateCheck, Keyed, SameUses, SameDrains, SameDefinitions, SameEvidence, KeepsAuthority,
      KeepsFences, KeepsClosed, Continues, AddsNoCurrent, KeepsAttempts;
    if op.OpActivate? {
      var q := op.request;
      StepActivate(s, op);
      ActivateSlots(s, q, op.now);
      if ActivateCheck(s, q, op.now).Pass? && q.slotId == slot && q.incarnationId != id {
        WithoutSlot(s, q, op.now);
        SlotVerdict(s, q, op.now);
      }
    }
  }

  /** At some call of the run the slot is taken away from its holder. */
  ghost predicate TakenAway(s: State, ops: seq<Op>, slot: u64, id: u64)
    decreases |ops|
  {
    ops != [] && (TakesAway(s, ops[0], slot, id) || TakenAway(Step(s, ops[0]).0, ops[1..], slot, id))
  }

  /** In every run without load the holder of a slot keeps it, unless at some call it was dead and another
      incarnation was activated in the slot, or a new epoch freed all slots. */
  lemma {:induction false} HolderKeepsSlot(s: State, ops: seq<Op>, slot: u64, id: u64)
    requires Keyed(s) && Holds(s, slot, id) && slot != 0 && id != 0 && forall op :: op in ops ==> !op.OpLoad?
    ensures Holds(Run(s, ops), slot, id) || TakenAway(s, ops, slot, id)
    decreases |ops|
  {
    if ops != [] {
      SlotStep(s, ops[0], slot, id);
      KeyedStep(s, ops[0]);
      hide Step, Keyed, TakesAway, Holds;
      if Holds(Step(s, ops[0]).0, slot, id) {
        HolderKeepsSlot(Step(s, ops[0]).0, ops[1..], slot, id);
      }
    }
  }

  /** So two requests for one slot cannot both succeed while the first holder lives. */
  lemma LiveHolderStays(s: State, q: Request, now: u64)
    requires Keyed(s) && q.slotId in s.slots && q.slotId != 0
    requires s.slots[q.slotId] !in {0, q.incarnationId} && !Dead(s, s.slots[q.slotId])
    ensures Activate(s, q, now).1.Threw? && Activate(s, q, now).0 == s
  {
    if ActivateCheck(s, q, now).Pass? {
      WithoutSlot(s, q, now);
      SlotVerdict(s, q, now);
    }
    ActivateShape(s, q, now);
    hide Activate, ActivateCheck, Keyed;
  }
}
