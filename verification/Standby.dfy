/** Standby reconciliation: the selection in runtime.cpp and the slot assignment of standby.cpp. */
module StandbyPool {
  import opened Prelude
  import opened Errors
  import opened Records
  import opened ReadinessRules
  import opened RuntimeState

  /** What stands behind a blocker text: an incarnation with its state of preparation, or a deficit. */
  datatype Blocker = Held(id: u64, preparation: PreparationState) | Needed(deficit: u32)

  datatype Accounting = Accounting(
    target: u32, eligible: u32, active: u32, stale: u32, deficit: u32, candidates: seq<u64>, deferred: seq<u64>,
    blockers: seq<Blocker>)

  /* ---- who counts as standby, without any order ---- */

  /** Lost, fenced, failed or retired. */
  predicate Excluded(i: Incarnation)
  {
    i.state.health.LostHealth? || i.state.health.FencedHealth? || Gone(i.state.lifecycle)
  }

  /** Some profile of the engine lets i serve. */
  ghost predicate Serves(s: State, i: Incarnation, now: u64)
  {
    i.engineId in s.engines
    && exists p :: p in s.profiles && s.profiles[p].engineId == i.engineId
                   && OutlookOf(s, s.profiles[p], i, now).Admits()
  }

  predicate HasProfile(s: State, engineId: u64)
  {
    exists p :: p in s.profiles && s.profiles[p].engineId == engineId
  }

  /** Considered at all by the selection loop. */
  predicate Considered(s: State, engineId: u64, k: u64)
  {
    k in s.incarnations && s.incarnations[k].engineId == engineId && !Excluded(s.incarnations[k])
    && !s.incarnations[k].state.activation.Active?
  }

  /** The loop evaluates a profile of an engine that is not defined: unordered_map::at throws. */
  ghost predicate AtThrows(s: State, engineId: u64)
  {
    engineId !in s.engines && HasProfile(s, engineId) && exists k :: Considered(s, engineId, k)
  }

  /** The selection loop takes k. */
  ghost predicate Chosen(s: State, engineId: u64, k: u64, now: u64)
  {
    Considered(s, engineId, k) && Serves(s, s.incarnations[k], now)
  }

  /** An incarnation of the engine that is down or that no profile lets serve. */
  ghost predicate Blocking(s: State, engineId: u64, k: u64, now: u64)
  {
    && k in s.incarnations && s.incarnations[k].engineId == engineId
    && (Excluded(s.incarnations[k]) || (Considered(s, engineId, k) && !Chosen(s, engineId, k, now)))
  }

  ghost function Blockers(s: State, engineId: u64, now: u64): set<u64>
  {
    set k | k in s.incarnations && Blocking(s, engineId, k, now)
  }

  /** The set of running standby incarnations that are READY or DEGRADED for some profile. */
  ghost function Eligible(s: State, engineId: u64, now: u64): set<u64>
  {
    set k | k in s.incarnations && Chosen(s, engineId, k, now) && s.incarnations[k].state.lifecycle.Running?
  }

  ghost predicate Increasing(xs: seq<u64>)
  {
    forall i, j :: 0 <= i < j < |xs| ==> xs[i] < xs[j]
  }

  /** c lists the n smallest elements of e in increasing order. */
  ghost predicate Smallest(c: seq<u64>, e: set<u64>, n: nat)
  {
    && |c| == n && Increasing(c) && (forall x :: x in c ==> x in e)
    && forall x, y :: x in e && x !in c && y in c ==> y < x
  }

  function Min(a: nat, b: nat): nat
  {
    if a <= b then a else b
  }

  /* ---- sorting ---- */

  method InsertSorted(xs: seq<u64>, x: u64) returns (ys: seq<u64>)
    requires Increasing(xs) && x !in xs
    ensures Increasing(ys) && |ys| == |xs| + 1
    ensures forall y :: y in ys <==> y in xs || y == x
  {
    var i := 0;
    while i < |xs| && xs[i] < x
      invariant i <= |xs| && forall j :: 0 <= j < i ==> xs[j] < x
    {
      i := i + 1;
    }
    ys := xs[..i] + [x] + xs[i..];
    Inserted(xs, i, x);
    InsertedInOrder(xs, i, x);
  }

  lemma Inserted(xs: seq<u64>, i: nat, x: u64)
    requires i <= |xs|
    ensures forall y :: y in xs[..i] + [x] + xs[i..] <==> y in xs || y == x
  {
    assert forall y :: y in xs[..i] + [x] + xs[i..] <==> y in xs[..i] || y == x || y in xs[i..];
    assert xs == xs[..i] + xs[i..];
  }

  lemma InsertedInOrder(xs: seq<u64>, i: nat, x: u64)
    requires Increasing(xs) && i <= |xs| && (forall j :: 0 <= j < i ==> xs[j] < x) && (i < |xs| ==> x < xs[i])
    ensures Increasing(xs[..i] + [x] + xs[i..])
  {
    var ys := xs[..i] + [x] + xs[i..];
    assert forall j :: 0 <= j < |ys| ==> ys[j] == if j < i then xs[j] else if j == i then x else xs[j - 1];
  }

  /** std::sort by incarnation id; ids are distinct, so the tie-break on the pid never decides. */
  method SortIds(xs: seq<u64>) returns (ys: seq<u64>)
    requires forall i, j :: 0 <= i < j < |xs| ==> xs[i] != xs[j]
    ensures Increasing(ys) && forall y :: y in ys <==> y in xs
  {
    ys := [];
    for n := 0 to |xs|
      invariant Increasing(ys) && forall y :: y in ys <==> y in xs[..n]
    {
      assert xs[..n + 1] == xs[..n] + [xs[n]] && xs[n] !in xs[..n];
      ys := InsertSorted(ys, xs[n]);
    }
    assert xs[..|xs|] == xs;
  }

  /* ---- the two routines ---- */

  ghost predicate ServedBy(s: State, i: Incarnation, order: seq<u64>, n: nat, now: u64)
    requires n <= |order| && forall k :: k in order ==> k in s.profiles
    requires i.engineId in s.engines
  {
    exists j :: 0 <= j < n && s.profiles[order[j]].engineId == i.engineId
                && OutlookOf(s, s.profiles[order[j]], i, now).Admits()
  }

  /** The inner loop: the best outcome over the profiles of the engine; None stands for UNKNOWN. */
  method BestOutlook(s: State, i: Incarnation, profileOrder: seq<u64>, now: u64)
      returns (threw: bool, best: Option<ReadinessOutcome>)
    requires Enumerates(profileOrder, s.profiles.Keys)
    ensures threw <==> i.engineId !in s.engines && HasProfile(s, i.engineId)
    ensures best.Some? <==> Serves(s, i, now)
    ensures best.Some? ==> best.value.Admits()
  {
    hide OutlookOf;
    best := None;
    for n := 0 to |profileOrder|
      invariant i.engineId !in s.engines ==> best.None?
      invariant i.engineId !in s.engines ==>
                  forall j :: 0 <= j < n ==> s.profiles[profileOrder[j]].engineId != i.engineId
      invariant i.engineId in s.engines ==> (best.Some? <==> ServedBy(s, i, profileOrder, n, now))
      invariant best.Some? ==> best.value == Degraded
    {
      var p := s.profiles[profileOrder[n]];
      if p.engineId != i.engineId {
        continue;
      }
      if i.engineId !in s.engines {
        return true, None;
      }
      var outcome := OutlookOf(s, p, i, now);
      if outcome == Ready {
        return false, Some(Ready);
      }
      if outcome == Degraded {
        best := Some(Degraded);
      }
    }
    assert forall p :: p in s.profiles ==> p in profileOrder;
    threw := false;
  }

  /** Running and not active: what the assignment looks at. */
  predicate Standing(s: State, k: u64)
  {
    k in s.incarnations && s.incarnations[k].state.lifecycle.Running? && !s.incarnations[k].state.activation.Active?
  }

  /** The outcome handed over for k is READY or DEGRADED; None stands for UNKNOWN. */
  predicate FoundReady(readiness: map<u64, Option<ReadinessOutcome>>, k: u64)
  {
    k in readiness && readiness[k].Some? && readiness[k].value.Admits()
  }

  function UsableOf(s: State, readiness: map<u64, Option<ReadinessOutcome>>, ks: seq<u64>): set<u64>
  {
    set k | k in ks && Standing(s, k) && FoundReady(readiness, k)
  }

  function StaleOf(s: State, readiness: map<u64, Option<ReadinessOutcome>>, ks: seq<u64>): set<u64>
  {
    set k | k in ks && Standing(s, k) && !FoundReady(readiness, k)
  }

  function HeldAll(s: State, ks: seq<u64>): (bs: seq<Blocker>)
    requires forall k :: k in ks ==> k in s.incarnations
  {
    seq(|ks|, i requires 0 <= i < |ks| => Held(ks[i], s.incarnations[ks[i]].state.preparation))
  }

  /** At most eight entries tell of a deficit. */
  function Deficits(deficit: u32): seq<Blocker>
  {
    seq(Min(deficit, 8), _ => Needed(deficit))
  }

  /** reconcile_standby of standby.cpp. Of the texts for blockers what they name is kept. */
  method AssignSlots(s: State, target: u32, slots: seq<u64>, eligible: seq<u64>, blocked: seq<u64>,
      readiness: map<u64, Option<ReadinessOutcome>>, active: u32) returns (acc: Accounting)
    requires forall i, j :: 0 <= i < j < |eligible| ==> eligible[i] != eligible[j]
    requires forall k :: k in eligible + blocked ==> k in s.incarnations
    ensures forall k :: k in blocked ==> k in s.incarnations
    ensures var e := UsableOf(s, readiness, eligible);
            && acc.target == target && acc.active == active
            && acc.stale == |StaleOf(s, readiness, eligible)| % TWO32
            && Smallest(acc.candidates, e, Min(|e|, |slots|))
            && acc.deferred == slots[|acc.candidates|..]
            && acc.eligible == (if slots == [] then |e| else |acc.candidates|) % TWO32
            && acc.deficit == (if acc.target > acc.eligible then acc.target - acc.eligible else 0)
            && acc.blockers == HeldAll(s, blocked) + Deficits(acc.deficit)
  {
    assert forall k :: k in eligible ==> k in eligible + blocked;
    assert forall k :: k in blocked ==> k in eligible + blocked;
    var ordered := SortIds(eligible);
    var usable, stale := KeepReady(s, ordered, readiness);
    ghost var e := UsableOf(s, readiness, eligible);
    assert UsableOf(s, readiness, ordered) == e && StaleOf(s, readiness, ordered) == StaleOf(s, readiness, eligible);
    IncreasingCounts(usable, e);
    var candidates, deferred := Deal(usable, slots);
    PrefixIsSmallest(usable, e, |candidates|);
    hide Smallest, Increasing, UsableOf, StaleOf;
    var count: u32 := (if slots == [] then |usable| else Min(|usable|, |slots|)) % TWO32;
    var deficit: u32 := if target > count then target - count else 0;
    var blockers := TellBlockers(s, blocked, deficit);
    acc := Accounting(target, count, active, stale, deficit, candidates, deferred, blockers);
  }

  method TellBlockers(s: State, blocked: seq<u64>, deficit: u32) returns (blockers: seq<Blocker>)
    requires forall k :: k in blocked ==> k in s.incarnations
    ensures blockers == HeldAll(s, blocked) + Deficits(deficit)
  {
    blockers := [];
    for n := 0 to |blocked|
      invariant blockers == HeldAll(s, blocked)[..n]
    {
      blockers := blockers + [Held(blocked[n], s.incarnations[blocked[n]].state.preparation)];
    }
    assert blockers == HeldAll(s, blocked);
    var i := 0;
    while i < deficit && i < 8
      invariant i <= Min(deficit, 8) && blockers == HeldAll(s, blocked) + Deficits(deficit)[..i]
    {
      blockers := blockers + [Needed(deficit)];
      i := i + 1;
    }
  }

  method KeepReady(s: State, ordered: seq<u64>, readiness: map<u64, Option<ReadinessOutcome>>)
      returns (usable: seq<u64>, stale: u32)
    requires Increasing(ordered) && forall k :: k in ordered ==> k in s.incarnations
    ensures Increasing(usable)
    ensures forall k :: k in usable <==> k in UsableOf(s, readiness, ordered)
    ensures stale == |StaleOf(s, readiness, ordered)| % TWO32
  {
    usable, stale := [], 0;
    assert StaleOf(s, readiness, ordered[..0]) == {};
    for n := 0 to |ordered|
      invariant Increasing(usable)
      invariant forall k :: k in usable <==> k in UsableOf(s, readiness, ordered[..n])
      invariant stale == |StaleOf(s, readiness, ordered[..n])| % TWO32
    {
      var k := ordered[n];
      PrefixGrows(ordered, n);
      OneMore(s, readiness, ordered[..n], k, ordered[..n + 1]);
      hide UsableOf, StaleOf, Increasing;
      if s.incarnations[k].state.lifecycle != Running {
        continue;
      }
      if s.incarnations[k].state.activation == Active {
        continue;
      }
      if k !in readiness || (readiness[k] != Some(Ready) && readiness[k] != Some(Degraded)) {
        stale := (stale + 1) % TWO32;
        continue;
      }
      AppendIncreases(usable, ordered, n);
      usable := usable + [k];
    }
    assert ordered[..|ordered|] == ordered;
  }

  lemma AppendIncreases(usable: seq<u64>, ordered: seq<u64>, n: nat)
    requires Increasing(usable) && Increasing(ordered) && n < |ordered|
    requires forall k :: k in usable ==> k in ordered[..n]
    ensures Increasing(usable + [ordered[n]])
  {
    assert forall k :: k in ordered[..n] ==> k < ordered[n];
    assert forall j :: 0 <= j < |usable| ==> usable[j] in usable;
  }

  lemma PrefixGrows(ordered: seq<u64>, n: nat)
    requires Increasing(ordered) && n < |ordered|
    ensures ordered[n] !in ordered[..n]
    ensures forall x :: x in ordered[..n + 1] <==> x in ordered[..n] || x == ordered[n]
  {
    assert ordered[..n + 1] == ordered[..n] + [ordered[n]];
  }

  /** One step of the loop, as it changes the two sets. */
  lemma OneMore(s: State, readiness: map<u64, Option<ReadinessOutcome>>, ks: seq<u64>, k: u64, ls: seq<u64>)
    requires k !in ks && forall x :: x in ls <==> x in ks || x == k
    ensures forall x :: x in UsableOf(s, readiness, ls) <==>
              x in UsableOf(s, readiness, ks) || (x == k && Standing(s, k) && FoundReady(readiness, k))
    ensures |StaleOf(s, readiness, ls)| ==
              |StaleOf(s, readiness, ks)| + if Standing(s, k) && !FoundReady(readiness, k) then 1 else 0
  {
    hide Standing, FoundReady;
    if Standing(s, k) && !FoundReady(readiness, k) {
      assert StaleOf(s, readiness, ls) == StaleOf(s, readiness, ks) + {k};
    } else {
      assert StaleOf(s, readiness, ls) == StaleOf(s, readiness, ks);
    }
  }

  /** One incarnation per slot while they last; the other slots are deferred. */
  method Deal(running: seq<u64>, slots: seq<u64>) returns (candidates: seq<u64>, deferred: seq<u64>)
    ensures candidates == running[..Min(|running|, |slots|)] && deferred == slots[|candidates|..]
  {
    candidates, deferred := [], [];
    for n := 0 to |slots|
      invariant candidates == running[..Min(n, |running|)] && deferred == slots[|candidates|..n]
    {
      if |candidates| < |running| {
        candidates := candidates + [running[|candidates|]];
      } else {
        deferred := deferred + [slots[n]];
      }
    }
  }

  lemma {:induction false} IncreasingCounts(xs: seq<u64>, e: set<u64>)
    requires Increasing(xs) && forall x :: x in xs <==> x in e
    ensures |xs| == |e|
    decreases |xs|
  {
    if xs == [] {
      assert e == {};
    } else {
      var n := |xs| - 1;
      assert xs == xs[..n] + [xs[n]] && xs[n] !in xs[..n];
      IncreasingCounts(xs[..n], e - {xs[n]});
    }
  }

  lemma InPrefix(xs: seq<u64>, n: nat)
    requires n <= |xs|
    ensures forall i :: 0 <= i < n ==> xs[i] in xs[..n]
  {
    assert forall i :: 0 <= i < n ==> xs[..n][i] == xs[i];
  }

  lemma PrefixIsSmallest(xs: seq<u64>, e: set<u64>, n: nat)
    requires Increasing(xs) && n <= |xs| && forall x :: x in xs <==> x in e
    ensures Smallest(xs[..n], e, n)
  {
    InPrefix(xs, n);
    forall x, y | x in e && x !in xs[..n] && y in xs[..n]
      ensures y < x
    {
      var i :| 0 <= i < |xs| && xs[i] == x;
      var j :| 0 <= j < n && xs[j] == y;
    }
  }

  /** Only one list satisfies the order-free description. */
  lemma {:induction false} SmallestIsUnique(c: seq<u64>, d: seq<u64>, e: set<u64>, n: nat)
    requires Smallest(c, e, n) && Smallest(d, e, n)
    ensures c == d
    decreases n
  {
    if n > 0 {
      var m := n - 1;
      ButLast(c, e, m);
      ButLast(d, e, m);
      SmallestIsUnique(c[..m], d[..m], e, m);
      LastIsLeast(c, d, e, m);
      LastIsLeast(d, c, e, m);
      assert c == c[..m] + [c[m]] && d == d[..m] + [d[m]];
    } else {
      assert c == [] && d == [];
    }
  }

  lemma LastIsLeast(c: seq<u64>, d: seq<u64>, e: set<u64>, m: nat)
    requires Smallest(c, e, m + 1) && Smallest(d, e, m + 1) && c[..m] == d[..m]
    ensures d[m] <= c[m]
  {
    assert d == c[..m] + [d[m]] && c[m] !in c[..m];
    assert c[m] in c && d[m] in d;
  }

  lemma ButLast(c: seq<u64>, e: set<u64>, m: nat)
    requires Smallest(c, e, m + 1)
    ensures Smallest(c[..m], e, m)
  {
    assert c == c[..m] + [c[m]];
    forall x, y | x in e && x !in c[..m] && y in c[..m]
      ensures y < x
    {
      assert y in c && (x == c[m] || x !in c);
    }
  }

  /** The active incarnations of the engine among ks. */
  function ActiveAmong(s: State, engineId: u64, ks: seq<u64>): set<u64>
    requires forall k :: k in ks ==> k in s.incarnations
  {
    set k | k in ks && s.incarnations[k].engineId == engineId && !Excluded(s.incarnations[k])
            && s.incarnations[k].state.activation.Active?
  }

  lemma NoneActive(s: State, engineId: u64)
    ensures ActiveAmong(s, engineId, []) == {}
  {
  }

  lemma ActiveGrows(s: State, engineId: u64, ks: seq<u64>, k: u64)
    requires (forall x :: x in ks + [k] ==> x in s.incarnations) && k !in ks
    ensures forall x :: x in ks ==> x in ks + [k]
    ensures |ActiveAmong(s, engineId, ks + [k])| == |ActiveAmong(s, engineId, ks)| +
            if s.incarnations[k].engineId == engineId && !Excluded(s.incarnations[k])
               && s.incarnations[k].state.activation.Active? then 1 else 0
  {
    assert forall x :: x in ks ==> x in ks + [k];
    assert ActiveAmong(s, engineId, ks + [k]) == ActiveAmong(s, engineId, ks) + ActiveAmong(s, engineId, [k]);
    assert ActiveAmong(s, engineId, [k]) <= {k};
    if k in ActiveAmong(s, engineId, [k]) {
      assert ActiveAmong(s, engineId, [k]) == {k};
    } else {
      assert ActiveAmong(s, engineId, [k]) == {};
    }
    hide ActiveAmong;
  }

  /** The selection loop; None when unordered_map::at threw. */
  method Select(s: State, engineId: u64, incarnationOrder: seq<u64>, profileOrder: seq<u64>, now: u64)
      returns (eligible: Option<seq<u64>>, blocked: seq<u64>, readiness: map<u64, Option<ReadinessOutcome>>,
        active: u32)
    requires Enumerates(incarnationOrder, s.incarnations.Keys) && Enumerates(profileOrder, s.profiles.Keys)
    ensures eligible.None? <==> AtThrows(s, engineId)
    ensures eligible.Some? ==>
              && (forall i, j :: 0 <= i < j < |eligible.value| ==> eligible.value[i] != eligible.value[j])
              && forall k :: k in eligible.value <==> Chosen(s, engineId, k, now)
    ensures eligible.Some? ==> forall k :: k in eligible.value ==> FoundReady(readiness, k)
    ensures eligible.Some? ==> Enumerates(blocked, Blockers(s, engineId, now))
    ensures eligible.Some? ==> active == |ActiveAmong(s, engineId, incarnationOrder)| % TWO32
  {
    hide Serves, HasProfile, ActiveAmong;
    NoneActive(s, engineId);
    assert incarnationOrder[..0] == [];
    var list: seq<u64> := [];
    blocked, readiness, active := [], map[], 0;
    for n := 0 to |incarnationOrder|
      invariant forall i, j :: 0 <= i < j < |list| ==> list[i] != list[j]
      invariant forall k :: k in list <==> k in incarnationOrder[..n] && Chosen(s, engineId, k, now)
      invariant forall k :: k in list ==> FoundReady(readiness, k)
      invariant forall i, j :: 0 <= i < j < |blocked| ==> blocked[i] != blocked[j]
      invariant forall k :: k in blocked <==> k in incarnationOrder[..n] && Blocking(s, engineId, k, now)
      invariant active == |ActiveAmong(s, engineId, incarnationOrder[..n])| % TWO32
      invariant engineId !in s.engines && HasProfile(s, engineId) ==>
                  forall k :: k in incarnationOrder[..n] ==> !Considered(s, engineId, k)
    {
      var k := incarnationOrder[n];
      assert incarnationOrder[..n + 1] == incarnationOrder[..n] + [k] && k !in incarnationOrder[..n];
      ActiveGrows(s, engineId, incarnationOrder[..n], k);
      var i := s.incarnations[k];
      if i.engineId != engineId {
        continue;
      }
      if Excluded(i) {
        blocked := blocked + [k];
        continue;
      }
      if i.state.activation == Active {
        active := (active + 1) % TWO32;
        continue;
      }
      assert Considered(s, engineId, k);
      var threw, best := BestOutlook(s, i, profileOrder, now);
      if threw {
        return None, blocked, readiness, active;
      }
      readiness := readiness[k := best];
      if best.Some? {
        list := list + [k];
      } else {
        blocked := blocked + [k];
      }
    }
    assert incarnationOrder[..|incarnationOrder|] == incarnationOrder;
    eligible := Some(list);
  }

  /** reconcile_standby of runtime.cpp followed by the slot assignment. The three orders are those of
      the hash tables. */
  method Reconcile(s: State, engineId: u64, target: u32, incarnationOrder: seq<u64>, profileOrder: seq<u64>,
      slotOrder: seq<u64>, now: u64) returns (res: Option<Accounting>)
    requires Enumerates(incarnationOrder, s.incarnations.Keys) && Enumerates(profileOrder, s.profiles.Keys)
    requires Enumerates(slotOrder, s.slots.Keys)
    ensures res.None? <==> AtThrows(s, engineId)
    ensures res.Some? ==> Reconciled(s, engineId, target, slotOrder, now, res.value)
    ensures res.Some? ==> res.value.active == |ActiveAmong(s, engineId, incarnationOrder)| % TWO32
  {
    hide Serves, HasProfile, AtThrows, Enumerates, Blockers;
    var eligible, blocked, readiness, active := Select(s, engineId, incarnationOrder, profileOrder, now);
    if eligible.None? {
      return None;
    }
    BlockersKnown(s, engineId, now, blocked);
    var acc := AssignSlots(s, target, slotOrder, eligible.value, blocked, readiness, active);
    assert Eligible(s, engineId, now) == UsableOf(s, readiness, eligible.value);
    assert StaleOf(s, readiness, eligible.value) == {};
    hide Eligible, Blockers, UsableOf, StaleOf, Smallest, HeldAll, Deficits;
    assert Told(s, blocked, Blockers(s, engineId, now), acc.blockers, acc.deficit);
    res := Some(acc);
  }

  lemma BlockersKnown(s: State, engineId: u64, now: u64, blocked: seq<u64>)
    requires Enumerates(blocked, Blockers(s, engineId, now))
    ensures forall k :: k in blocked ==> k in s.incarnations
  {
  }

  /** The blockers are the incarnations of the set, in the order `ks`, and the entries for the deficit. */
  ghost predicate Told(s: State, ks: seq<u64>, all: set<u64>, blockers: seq<Blocker>, deficit: u32)
  {
    && Enumerates(ks, all) && (forall k :: k in ks ==> k in s.incarnations)
    && blockers == HeldAll(s, ks) + Deficits(deficit)
  }

  /** The order-free description: the candidates are the smallest ids of the eligible set, as many as
      there are slots; the remaining slots are deferred; eligible and deficit together reach the target. */
  ghost predicate Reconciled(s: State, engineId: u64, target: u32, slots: seq<u64>, now: u64, acc: Accounting)
  {
    var e := Eligible(s, engineId, now);
    && Smallest(acc.candidates, e, Min(|e|, |slots|))
    && acc.deferred == slots[|acc.candidates|..]
    && (exists ks :: Told(s, ks, Blockers(s, engineId, now), acc.blockers, acc.deficit)) && acc.stale == 0
    && acc.eligible == (if slots == [] then |e| else |acc.candidates|) % TWO32
    && acc.target == target && acc.eligible + acc.deficit == if target > acc.eligible then target else acc.eligible
  }

  /** Who is eligible and who blocks, on the records: eligible are the incarnations of the engine that run, are
      healthy enough not to be lost or fenced, are not active, and are READY or DEGRADED for some profile of
      the engine; blocking are those that are lost, fenced, failed or retired, and those that are not active
      and READY or DEGRADED for no profile. */
  lemma StandbyIsExact(s: State, engineId: u64, k: u64, now: u64)
    requires k in s.incarnations && s.incarnations[k].engineId == engineId
    ensures var i := s.incarnations[k];
            var down := i.state.health in {LostHealth, FencedHealth} || i.state.lifecycle in {Lost, Failed, Retired};
            var serves := exists p :: p in s.profiles && s.profiles[p].engineId == engineId && engineId in s.engines
                                      && OutlookOf(s, s.profiles[p], i, now) in {Ready, Degraded};
            && (k in Eligible(s, engineId, now) <==>
                  !down && i.state.lifecycle == Running && i.state.activation != Active && serves)
            && (k in Blockers(s, engineId, now) <==> down || (i.state.activation != Active && !serves))
  {
    hide OutlookOf;
  }

  /** No other engine's incarnation is either. */
  lemma OthersAreOut(s: State, engineId: u64, k: u64, now: u64)
    requires k in Eligible(s, engineId, now) + Blockers(s, engineId, now)
    ensures k in s.incarnations && s.incarnations[k].engineId == engineId
  {
  }

  /** All iteration orders of the hash tables select the same candidates and report the same numbers,
      and candidates and deferred slots together are as many as the slots. */
  lemma OrderDoesNotMatter(s: State, engineId: u64, target: u32, now: u64, a: Accounting, b: Accounting,
      slots: seq<u64>, slots': seq<u64>)
    requires Enumerates(slots, s.slots.Keys) && Enumerates(slots', s.slots.Keys)
    requires Reconciled(s, engineId, target, slots, now, a) && Reconciled(s, engineId, target, slots', now, b)
    ensures a.candidates == b.candidates && |a.deferred| == |b.deferred|
    ensures a.eligible == b.eligible && a.deficit == b.deficit
    ensures |a.candidates| + |a.deferred| == |s.slots|
    ensures |a.blockers| == |b.blockers| && forall x :: x in a.blockers <==> x in b.blockers
  {
    var all := Blockers(s, engineId, now);
    var ks :| Told(s, ks, all, a.blockers, a.deficit);
    var ls :| Told(s, ls, all, b.blockers, b.deficit);
    hide Told, Blockers;
    EnumerationCounts(slots, s.slots.Keys);
    EnumerationCounts(slots', s.slots.Keys);
    hide Eligible, Enumerates;
    SmallestIsUnique(a.candidates, b.candidates, Eligible(s, engineId, now), |a.candidates|);
    hide Smallest;
    SameTold(s, ks, ls, all, a.blockers, b.blockers, a.deficit);
  }

  lemma SameTold(s: State, ks: seq<u64>, ls: seq<u64>, all: set<u64>, a: seq<Blocker>, b: seq<Blocker>, deficit: u32)
    requires Told(s, ks, all, a, deficit) && Told(s, ls, all, b, deficit)
    ensures |a| == |b| && forall x :: x in a <==> x in b
  {
    EnumerationCounts(ks, all);
    EnumerationCounts(ls, all);
    HeldHas(s, ks);
    HeldHas(s, ls);
    hide HeldAll, Deficits;
    assert forall k :: k in ks <==> k in ls;
  }

  lemma HeldHas(s: State, ks: seq<u64>)
    requires forall k :: k in ks ==> k in s.incarnations
    ensures |HeldAll(s, ks)| == |ks|
    ensures forall x :: x in HeldAll(s, ks) <==>
              x.Held? && x.id in ks && x.preparation == s.incarnations[x.id].state.preparation
  {
    forall x: Blocker | x.Held? && x.id in ks && x.preparation == s.incarnations[x.id].state.preparation
      ensures x in HeldAll(s, ks)
    {
      var i :| 0 <= i < |ks| && ks[i] == x.id;
      assert HeldAll(s, ks)[i] == x;
    }
  }

  lemma {:induction false} EnumerationCounts(order: seq<u64>, s: set<u64>)
    requires Enumerates(order, s)
    ensures |order| == |s|
    decreases |order|
  {
    if order == [] {
      assert s == {} by {
        assert forall x :: x in s ==> x in order;
      }
    } else {
      EnumerationTail(order, s);
      EnumerationCounts(order[1..], s - {order[0]});
    }
  }
}
