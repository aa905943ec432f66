/** Evidence published under a clock that moves (runtime.cpp:232-257, readiness.cpp:9-29): the record that
    readiness relies on is the last one published. */
module Clock {
  import opened Prelude
  import opened Records
  import opened ReadinessRules
  import opened RuntimeState
  import opened RuntimeRuns

  /** One evidence generation, strictly increasing times, none after `last`. */
  ghost predicate InOrder(es: seq<Evidence>, last: u64)
  {
    && (forall j :: 0 <= j < |es| ==> es[j].evidenceGeneration == 1 && es[j].measured.observedAtNs <= last)
    && (forall j, k :: 0 <= j < k < |es| ==> es[j].measured.observedAtNs < es[k].measured.observedAtNs)
  }

  ghost predicate Timely(s: State, last: u64)
  {
    forall k :: k in s.evidence ==> InOrder(s.evidence[k], last)
  }

  function TickOf(op: Op, last: u64): u64
  {
    if op.OpPublish? then op.now else last
  }

  /** Each publication reads a later time than the one before; other operations read any. */
  ghost predicate Ticking(ops: seq<Op>, last: u64)
  {
    ops == [] || ((ops[0].OpPublish? ==> last < ops[0].now) && Ticking(ops[1..], TickOf(ops[0], last)))
  }

  function LastTick(ops: seq<Op>, last: u64): u64
  {
    if ops == [] then last else LastTick(ops[1..], TickOf(ops[0], last))
  }

  lemma AppendInOrder(es: seq<Evidence>, e: Evidence, last: u64, now: u64)
    requires InOrder(es, last) && last < now && e.evidenceGeneration == 1 && e.measured.observedAtNs == now
    ensures InOrder(es + [e], now)
  {
  }

  lemma DistrustedInOrder(es: seq<Evidence>, reason: bytes, last: u64)
    requires InOrder(es, last)
    ensures InOrder(Distrusted(es, reason), last)
  {
  }

  lemma PublishInOrder(s: State, ev: Evidence, now: u64, last: u64)
    requires Timely(s, last) && last < now
    ensures Timely(Publish(s, ev, now).0, now)
  {
    var key := ev.origin.incarnationId;
    PublishShape(s, ev, now);
    assert InOrder(EvidenceOf(s, key), last);
    AppendInOrder(EvidenceOf(s, key), Stamped(s, ev, now), last, now);
    Later(s, last, now);
    hide Publish, PublishCheck, Stamped, EvidenceOf, InOrder;
  }

  lemma Later(s: State, last: u64, now: u64)
    requires Timely(s, last) && last <= now
    ensures Timely(s, now)
  {
  }

  lemma InvalidateInOrder(s: State, id: u64, reason: bytes, last: u64)
    requires Timely(s, last)
    ensures Timely(InvalidateComponents(s, id, reason).0, last)
  {
    InvalidateShape(s, id, reason);
    if id in s.evidence {
      DistrustedInOrder(s.evidence[id], reason, last);
    }
    hide InvalidateComponents, InOrder, Distrusted;
  }

  lemma TimelyStep(s: State, op: Op, last: u64)
    requires Timely(s, last) && !op.OpLoad? && (op.OpPublish? ==> last < op.now)
    ensures Timely(Step(s, op).0, TickOf(op, last))
  {
    hide Step, Publish, InvalidateComponents, InOrder, SameUses, SameDrains, SameDefinitions, KeepsAuthority,
      KeepsFences, KeepsClosed, Continues, AddsNoCurrent, KeepsAttempts, SameActivations;
    if op.OpPublish? {
      StepPublish(s, op);
      PublishInOrder(s, op.ev, op.now, last);
    } else if op.OpInvalidateComponents? {
      StepInvalidate(s, op);
      InvalidateInOrder(s, op.id, op.reason, last);
    }
  }

  /** In every run without load whose publications read an increasing clock, each incarnation's records
      stay in the order of their times. */
  lemma {:induction false} TimelyRun(s: State, ops: seq<Op>, last: u64)
    requires Timely(s, last) && Ticking(ops, last) && forall op :: op in ops ==> !op.OpLoad?
    ensures Timely(Run(s, ops), LastTick(ops, last))
    decreases |ops|
  {
    if ops != [] {
      TimelyStep(s, ops[0], last);
      hide Step, Timely;
      TimelyRun(Step(s, ops[0]).0, ops[1..], TickOf(ops[0], last));
    }
  }

  /** Hence readiness relies on the record published last among those that match. */
  lemma LatestIsChosen(s: State, ops: seq<Op>, last: u64, k: u64, category: ComponentCategory, subject: bytes, i: nat)
    requires Timely(s, last) && Ticking(ops, last) && forall op :: op in ops ==> !op.OpLoad?
    ensures var es := EvidenceOf(Run(s, ops), k);
            Best(es, category, subject, []) == Some(i) <==>
              && i < |es| && Matches(es[i], category, subject, [])
              && forall j :: i < j < |es| ==> !Matches(es[j], category, subject, [])
  {
    TimelyRun(s, ops, last);
    var es := EvidenceOf(Run(s, ops), k);
    assert InOrder(es, LastTick(ops, last));
    hide Run, Ticking, LastTick, EvidenceOf, Timely;
    BestIsLast(es, category, subject, [], i);
  }
}
