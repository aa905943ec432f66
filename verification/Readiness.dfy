/** The readiness evaluator of readiness.cpp. */
module ReadinessRules {
  import opened Prelude
  import opened Records

  /** Ordered by `Rank` from worst to best. */
  datatype ReadinessOutcome = Blocked | Overdue | Degraded | Ready {
    function Rank(): nat {
      match this
      case Blocked => 0 case Overdue => 1 case Degraded => 2 case Ready => 3
    }

    /** The two outcomes that let a use be admitted, an engine be activated or an attempt be published. */
    predicate Admits() { Degraded? || Ready? }
  }

  /** What one requirement comes out as. PermittedAbsent is an optional component that is not there
      or not far enough. */
  datatype Verdict = Met | MetByFallback | PermittedAbsent | Missing | Incompatible | TooOld {
    function Alone(): ReadinessOutcome {
      match this
      case Met => Ready case PermittedAbsent => Ready case MetByFallback => Degraded
      case TooOld => Overdue case Missing => Blocked case Incompatible => Blocked
    }
  }

  /** The source's is_fresh; a zero age means the evidence never expires. */
  predicate IsFresh(e: Evidence, now: u64)
  {
    var m := e.measured;
    m.maxAgeNs == 0 || (m.observedAtNs != 0 && m.observedAtNs <= now && now - m.observedAtNs <= m.maxAgeNs)
  }

  /* ---- best_evidence ---- */

  predicate Matches(e: Evidence, category: ComponentCategory, subject: bytes, nspace: bytes)
  {
    e.category == category && (subject == [] || e.subject == subject) && (nspace == [] || e.nspace == nspace)
  }

  /** Strictly later in the order by generation, then by observation time. */
  predicate Newer(a: Evidence, b: Evidence)
  {
    || a.evidenceGeneration > b.evidenceGeneration
    || (a.evidenceGeneration == b.evidenceGeneration && a.measured.observedAtNs > b.measured.observedAtNs)
  }

  /** i is the first of the newest matching records. */
  ghost predicate FirstNewest(ev: seq<Evidence>, category: ComponentCategory, subject: bytes, nspace: bytes, i: nat)
  {
    && i < |ev| && Matches(ev[i], category, subject, nspace)
    && forall j :: 0 <= j < |ev| && j != i && Matches(ev[j], category, subject, nspace) ==>
         if j < i then Newer(ev[i], ev[j]) else !Newer(ev[j], ev[i])
  }

  function Best(ev: seq<Evidence>, category: ComponentCategory, subject: bytes, nspace: bytes): (b: Option<nat>)
    ensures b.Some? ==> b.value < |ev|
  {
    if ev == [] then None
    else
      var n := |ev| - 1;
      var b := Best(ev[..n], category, subject, nspace);
      if Matches(ev[n], category, subject, nspace) && (b.None? || Newer(ev[n], ev[b.value])) then Some(n) else b
  }

  ghost predicate NoMatch(ev: seq<Evidence>, category: ComponentCategory, subject: bytes, nspace: bytes)
  {
    forall j :: 0 <= j < |ev| ==> !Matches(ev[j], category, subject, nspace)
  }

  lemma NewerOrder(a: Evidence, b: Evidence, c: Evidence)
    requires Newer(a, b) && !Newer(c, b)
    ensures Newer(a, c) && !Newer(b, a)
  {
  }

  lemma NewestReplaced(ev: seq<Evidence>, e: Evidence, category: ComponentCategory, subject: bytes, nspace: bytes,
      i: nat)
    requires FirstNewest(ev, category, subject, nspace, i) && Matches(e, category, subject, nspace) && Newer(e, ev[i])
    ensures FirstNewest(ev + [e], category, subject, nspace, |ev|)
  {
    hide Matches;
    forall j | 0 <= j < |ev| && Matches(ev[j], category, subject, nspace)
      ensures Newer(e, ev[j])
    {
      if j != i {
        if j < i {
          assert !Newer(ev[j], ev[i]);
        }
        NewerOrder(e, ev[i], ev[j]);
      }
    }
    hide Newer;
  }

  lemma NewestStays(ev: seq<Evidence>, e: Evidence, category: ComponentCategory, subject: bytes, nspace: bytes,
      i: nat)
    requires FirstNewest(ev, category, subject, nspace, i)
    requires !(Matches(e, category, subject, nspace) && Newer(e, ev[i]))
    ensures FirstNewest(ev + [e], category, subject, nspace, i)
  {
    hide Matches, Newer;
    var all := ev + [e];
    assert all[|ev|] == e && forall j :: 0 <= j < |ev| ==> all[j] == ev[j];
  }

  lemma FirstMatch(ev: seq<Evidence>, e: Evidence, category: ComponentCategory, subject: bytes, nspace: bytes)
    requires NoMatch(ev, category, subject, nspace)
    ensures if Matches(e, category, subject, nspace)
            then FirstNewest(ev + [e], category, subject, nspace, |ev|)
            else NoMatch(ev + [e], category, subject, nspace)
  {
    hide Matches, Newer;
  }

  lemma {:induction false} BestFinds(ev: seq<Evidence>, category: ComponentCategory, subject: bytes, nspace: bytes)
    ensures match Best(ev, category, subject, nspace)
            case None => NoMatch(ev, category, subject, nspace)
            case Some(i) => FirstNewest(ev, category, subject, nspace, i)
    decreases |ev|
  {
    if ev != [] {
      var n := |ev| - 1;
      BestFinds(ev[..n], category, subject, nspace);
      assert ev == ev[..n] + [ev[n]];
      var b := Best(ev[..n], category, subject, nspace);
      hide Matches, Newer, FirstNewest, NoMatch;
      if b.None? {
        FirstMatch(ev[..n], ev[n], category, subject, nspace);
      } else if Matches(ev[n], category, subject, nspace) && Newer(ev[n], ev[b.value]) {
        NewestReplaced(ev[..n], ev[n], category, subject, nspace, b.value);
      } else {
        NewestStays(ev[..n], ev[n], category, subject, nspace, b.value);
      }
    }
  }

  /** Best finds the first of the newest matches, and fails only when nothing matches. */
  lemma BestIsFirstNewest(ev: seq<Evidence>, category: ComponentCategory, subject: bytes, nspace: bytes, i: nat)
    ensures Best(ev, category, subject, nspace) == Some(i) <==> FirstNewest(ev, category, subject, nspace, i)
    ensures Best(ev, category, subject, nspace) == None <==>
              forall j :: 0 <= j < |ev| ==> !Matches(ev[j], category, subject, nspace)
  {
    BestFinds(ev, category, subject, nspace);
    hide Best, Matches;
  }

  lemma BestOfNext(ev: seq<Evidence>, category: ComponentCategory, subject: bytes, nspace: bytes, i: nat)
    requires i < |ev|
    ensures var b := Best(ev[..i], category, subject, nspace);
            Best(ev[..i + 1], category, subject, nspace) ==
              if Matches(ev[i], category, subject, nspace) && (b.None? || Newer(ev[i], ev[b.value])) then Some(i) else b
  {
    assert ev[..i + 1][..i] == ev[..i];
    hide Matches, Newer;
  }

  method BestEvidence(ev: seq<Evidence>, category: ComponentCategory, subject: bytes, nspace: bytes)
      returns (best: Option<nat>)
    ensures best == Best(ev, category, subject, nspace)
  {
    best := None;
    assert Best(ev[..0], category, subject, nspace) == None;
    hide Best, FirstNewest;
    for i := 0 to |ev|
      invariant best == Best(ev[..i], category, subject, nspace)
    {
      BestOfNext(ev, category, subject, nspace, i);
      var e := ev[i];
      if e.category != category {
        continue;
      }
      if subject != [] && e.subject != subject {
        continue;
      }
      if nspace != [] && e.nspace != nspace {
        continue;
      }
      if best.None? || e.evidenceGeneration > ev[best.value].evidenceGeneration {
        best := Some(i);
      } else if e.evidenceGeneration == ev[best.value].evidenceGeneration
                && e.measured.observedAtNs > ev[best.value].measured.observedAtNs {
        best := Some(i);
      }
    }
    assert ev[..|ev|] == ev;
  }

  /** Under one evidence generation and a strictly increasing clock, the chosen record is the last match. */
  lemma BestIsLast(ev: seq<Evidence>, category: ComponentCategory, subject: bytes, nspace: bytes, i: nat)
    requires forall j, k :: 0 <= j < k < |ev| ==> ev[j].evidenceGeneration == ev[k].evidenceGeneration
    requires forall j, k :: 0 <= j < k < |ev| ==> ev[j].measured.observedAtNs < ev[k].measured.observedAtNs
    ensures Best(ev, category, subject, nspace) == Some(i) <==>
            && i < |ev| && Matches(ev[i], category, subject, nspace)
            && forall j :: i < j < |ev| ==> !Matches(ev[j], category, subject, nspace)
  {
    BestIsFirstNewest(ev, category, subject, nspace, i);
    hide Best, Matches;
  }

  /* ---- one requirement ---- */

  /** ABSENT < DISCOVERED < AVAILABLE < LOADING < BOUND < VERIFIED; the other four are negative. */
  function Strength(s: ComponentState): int
  {
    match s
    case Absent => 0 case Discovered => 1 case Available => 2 case Loading => 3 case Bound => 4 case Verified => 5
    case FailedComponent => -1 case Stale => -2 case Unknown => -3 case RevalidationRequired => -4
  }

  predicate StateSatisfies(actual: ComponentState, required: ComponentState)
  {
    Strength(actual) >= Strength(required) && Strength(required) >= 0
  }

  predicate CompatibilityMismatch(r: ProfileRequirement, e: Evidence)
  {
    r.compatibility.IsValid() && r.compatibility != e.compatibility
  }

  /** The KV state family, like the allocation and resource claim families, is never compared. */
  predicate GenerationMismatch(engine: EngineDefinition, r: ProfileRequirement, e: Evidence)
  {
    match r.family
    case ModelFamily => e.generations.model != engine.model.generation
    case AdapterFamily => e.generations.adapter != engine.adapter.generation
    case KvCapacityFamily => e.generations.kvCapacity == 0
    case KernelFamily => e.generations.kernel != engine.execution.kernel.generation
    case GraphFamily => e.generations.graph != engine.execution.graph.generation
    case DependencyFamily => e.generations.dependency != engine.claims.dependencyGeneration
    case CompatibilityFamily => CompatibilityMismatch(r, e)
    case _ => false
  }

  function Judge(engine: EngineDefinition, r: ProfileRequirement, ev: seq<Evidence>, now: u64): Verdict
  {
    if r.kind.Unsupported? then Incompatible
    else
      match Best(ev, r.category, r.subject, [])
      case None => if r.kind.Optional? then PermittedAbsent else Missing
      case Some(i) =>
        var e := ev[i];
        if !StateSatisfies(e.state, r.minState) then (if r.kind.Optional? then PermittedAbsent else Missing)
        else if CompatibilityMismatch(r, e) || GenerationMismatch(engine, r, e) then Incompatible
        else if !IsFresh(e, now) && !r.kind.Optional? then TooOld
        else if r.kind.PermittedFallback? then MetByFallback
        else Met
  }

  /** The outcome of a profile that has this requirement and no other. */
  function Single(engine: EngineDefinition, r: ProfileRequirement, ev: seq<Evidence>, now: u64): ReadinessOutcome
  {
    Judge(engine, r, ev, now).Alone()
  }

  function Worse(a: ReadinessOutcome, b: ReadinessOutcome): ReadinessOutcome
  {
    if a.Rank() <= b.Rank() then a else b
  }

  /** The minimum of the single outcomes. */
  function Outlook(engine: EngineDefinition, rs: seq<ProfileRequirement>, ev: seq<Evidence>, now: u64): ReadinessOutcome
  {
    if rs == [] then Ready
    else
      var n := |rs| - 1;
      Worse(Outlook(engine, rs[..n], ev, now), Single(engine, rs[n], ev, now))
  }

  /** The lists of a readiness result. The program lists a label for each requirement, which is its subject
      or the name of its category; here it is the requirement. */
  datatype Lists = Lists(
    satisfied: seq<ProfileRequirement>, missing: seq<ProfileRequirement>, stale: seq<ProfileRequirement>,
    incompatible: seq<ProfileRequirement>, fallback: Option<ProfileRequirement>)

  /** The requirements that come out as one of `vs`, in their order. */
  function Having(engine: EngineDefinition, rs: seq<ProfileRequirement>, ev: seq<Evidence>, now: u64,
      vs: set<Verdict>): seq<ProfileRequirement>
  {
    if rs == [] then []
    else
      var n := |rs| - 1;
      Having(engine, rs[..n], ev, now, vs) + if Judge(engine, rs[n], ev, now) in vs then [rs[n]] else []
  }

  function Last<T>(xs: seq<T>): Option<T>
  {
    if xs == [] then None else Some(xs[|xs| - 1])
  }

  /** The lists sort the requirements by verdict; of those met by fallback the last is named. */
  function ListsOf(engine: EngineDefinition, rs: seq<ProfileRequirement>, ev: seq<Evidence>, now: u64): Lists
  {
    Lists(Having(engine, rs, ev, now, {Met, MetByFallback}), Having(engine, rs, ev, now, {Missing}),
      Having(engine, rs, ev, now, {TooOld}), Having(engine, rs, ev, now, {Incompatible}),
      Last(Having(engine, rs, ev, now, {MetByFallback})))
  }

  function Sorted(l: Lists, r: ProfileRequirement, v: Verdict): Lists
  {
    match v
    case Met => l.(satisfied := l.satisfied + [r])
    case MetByFallback => l.(satisfied := l.satisfied + [r], fallback := Some(r))
    case PermittedAbsent => l
    case Missing => l.(missing := l.missing + [r])
    case Incompatible => l.(incompatible := l.incompatible + [r])
    case TooOld => l.(stale := l.stale + [r])
  }

  lemma ListsGrow(engine: EngineDefinition, rs: seq<ProfileRequirement>, ev: seq<Evidence>, now: u64, i: nat)
    requires i < |rs|
    ensures ListsOf(engine, rs[..i + 1], ev, now)
            == Sorted(ListsOf(engine, rs[..i], ev, now), rs[i], Judge(engine, rs[i], ev, now))
  {
    assert rs[..i + 1][..i] == rs[..i];
    hide Judge;
  }

  /** The size of the best KV capacity record, which the program reports as entries. */
  function Headroom(ev: seq<Evidence>): u64
  {
    match Best(ev, KvCapacity, [], [])
    case None => 0
    case Some(i) => ev[i].measured.sizeBytes
  }

  /** evaluate_readiness: four flags decide the outcome; `verdicts` is the per-requirement list. */
  method EvaluateReadiness(engine: EngineDefinition, rs: seq<ProfileRequirement>, ev: seq<Evidence>, now: u64)
      returns (outcome: ReadinessOutcome, verdicts: seq<Verdict>, lists: Lists, headroom: u64)
    ensures outcome == Outlook(engine, rs, ev, now)
    ensures |verdicts| == |rs| && forall i :: 0 <= i < |rs| ==> verdicts[i] == Judge(engine, rs[i], ev, now)
    ensures lists == ListsOf(engine, rs, ev, now) && headroom == Headroom(ev)
  {
    hide Judge;
    verdicts, lists, headroom := [], Lists([], [], [], [], None), 0;
    assert lists == ListsOf(engine, rs[..0], ev, now);
    var missing, stale, incompatible, fallback := false, false, false, false;
    hide ListsOf, Having;
    for i := 0 to |rs|
      invariant |verdicts| == i && forall k :: 0 <= k < i ==> verdicts[k] == Judge(engine, rs[k], ev, now)
      invariant Outlook(engine, rs[..i], ev, now) == Flags(incompatible, missing, stale, fallback)
      invariant lists == ListsOf(engine, rs[..i], ev, now)
    {
      assert rs[..i + 1][..i] == rs[..i];
      ListsGrow(engine, rs, ev, now, i);
      var v := JudgeOne(engine, rs[i], ev, now);
      verdicts := verdicts + [v];
      match v {
        case Incompatible =>
          incompatible := true;
          lists := lists.(incompatible := lists.incompatible + [rs[i]]);
        case Missing =>
          missing := true;
          lists := lists.(missing := lists.missing + [rs[i]]);
        case TooOld =>
          stale := true;
          lists := lists.(stale := lists.stale + [rs[i]]);
        case MetByFallback =>
          fallback := true;
          lists := lists.(satisfied := lists.satisfied + [rs[i]], fallback := Some(rs[i]));
        case Met =>
          lists := lists.(satisfied := lists.satisfied + [rs[i]]);
        case PermittedAbsent =>
      }
    }
    assert rs[..|rs|] == rs;
    var kv := BestEvidence(ev, KvCapacity, [], []);
    if kv.Some? {
      headroom := ev[kv.value].measured.sizeBytes;
    }
    outcome := Flags(incompatible, missing, stale, fallback);
  }

  /** The lists and the outcome agree: the result is BLOCKED exactly when something is missing or
      incompatible, STALE exactly when otherwise something is stale, and DEGRADED or READY exactly when
      those three lists are empty. */
  lemma {:induction false} ListsTellOutcome(engine: EngineDefinition, rs: seq<ProfileRequirement>, ev: seq<Evidence>,
      now: u64)
    ensures var l := ListsOf(engine, rs, ev, now); var o := Outlook(engine, rs, ev, now);
            && (o.Blocked? <==> l.missing + l.incompatible != [])
            && (o.Overdue? <==> l.missing + l.incompatible == [] && l.stale != [])
            && (o.Admits() <==> l.missing + l.incompatible + l.stale == [])
            && (o.Ready? <==> l.missing + l.incompatible + l.stale == [] && l.fallback == None)
    decreases |rs|
  {
    if rs != [] {
      var n := |rs| - 1;
      ListsTellOutcome(engine, rs[..n], ev, now);
      ListsGrow(engine, rs, ev, now, n);
      assert rs[..n + 1] == rs;
      hide Judge, ListsOf, Having;
    }
  }

  function Flags(incompatible: bool, missing: bool, stale: bool, fallback: bool): ReadinessOutcome
  {
    if incompatible then Blocked else if missing then Blocked else if stale then Overdue
    else if fallback then Degraded else Ready
  }

  /** One iteration of evaluate_readiness. */
  method JudgeOne(engine: EngineDefinition, r: ProfileRequirement, ev: seq<Evidence>, now: u64) returns (v: Verdict)
    ensures v == Judge(engine, r, ev, now)
  {
    if r.kind == Unsupported {
      return Incompatible;
    }
    var b := BestEvidence(ev, r.category, r.subject, []);
    if b.None? {
      if r.kind != Optional {
        return Missing;
      }
      return PermittedAbsent;
    }
    var e := ev[b.value];
    if !StateSatisfies(e.state, r.minState) {
      if r.kind != Optional {
        return Missing;
      }
      return PermittedAbsent;
    }
    if CompatibilityMismatch(r, e) {
      return Incompatible;
    }
    if r.family != AnyFamily && GenerationMismatch(engine, r, e) {
      return Incompatible;
    }
    if !IsFresh(e, now) && r.kind != Optional {
      return TooOld;
    }
    return if r.kind == PermittedFallback then MetByFallback else Met;
  }

  /* ---- what the outcome means ---- */

  /** The outcome is no better than any single one, and is one of them unless there are none. */
  lemma {:induction false} OutlookIsMinimum(engine: EngineDefinition, rs: seq<ProfileRequirement>, ev: seq<Evidence>,
      now: u64)
    ensures forall r :: r in rs ==> Outlook(engine, rs, ev, now).Rank() <= Single(engine, r, ev, now).Rank()
    ensures Outlook(engine, rs, ev, now) == Ready
            || exists r :: r in rs && Outlook(engine, rs, ev, now) == Single(engine, r, ev, now)
    decreases |rs|
  {
    if rs != [] {
      var n := |rs| - 1;
      OutlookIsMinimum(engine, rs[..n], ev, now);
      assert rs == rs[..n] + [rs[n]];
      hide Single;
    }
  }

  /** More requirements never give a better outcome; in particular the outcome does not depend on the
      order of the requirements or on repeating one. */
  lemma MoreRequirements(engine: EngineDefinition, rs: seq<ProfileRequirement>, qs: seq<ProfileRequirement>,
      ev: seq<Evidence>, now: u64)
    requires forall r :: r in rs ==> r in qs
    ensures Outlook(engine, qs, ev, now).Rank() <= Outlook(engine, rs, ev, now).Rank()
    ensures (forall r :: r in qs ==> r in rs) ==> Outlook(engine, qs, ev, now) == Outlook(engine, rs, ev, now)
  {
    OutlookIsMinimum(engine, rs, ev, now);
    OutlookIsMinimum(engine, qs, ev, now);
    hide Outlook, Single;
  }

  /** The outcome admits exactly when every single requirement does. */
  lemma AdmitsAll(engine: EngineDefinition, rs: seq<ProfileRequirement>, ev: seq<Evidence>, now: u64)
    ensures Outlook(engine, rs, ev, now).Admits() <==> forall r :: r in rs ==> Single(engine, r, ev, now).Admits()
  {
    OutlookIsMinimum(engine, rs, ev, now);
    hide Outlook, Single;
    assert forall x: ReadinessOutcome :: x.Admits() <==> x.Rank() >= 2;
  }

  /** With all observations in the past, letting time pass never improves the outcome. */
  lemma {:induction false} TimePasses(engine: EngineDefinition, rs: seq<ProfileRequirement>, ev: seq<Evidence>,
      now: u64, later: u64)
    requires now <= later && forall e :: e in ev ==> e.measured.observedAtNs <= now
    ensures Outlook(engine, rs, ev, later).Rank() <= Outlook(engine, rs, ev, now).Rank()
    decreases |rs|
  {
    if rs != [] {
      var n := |rs| - 1;
      TimePasses(engine, rs[..n], ev, now, later);
      JudgementAges(engine, rs[n], ev, now, later);
    }
  }

  lemma JudgementAges(engine: EngineDefinition, r: ProfileRequirement, ev: seq<Evidence>, now: u64, later: u64)
    requires now <= later && forall e :: e in ev ==> e.measured.observedAtNs <= now
    ensures Single(engine, r, ev, later).Rank() <= Single(engine, r, ev, now).Rank()
  {
    hide Best, StateSatisfies, CompatibilityMismatch, GenerationMismatch;
  }

  /** A restored record satisfies no requirement at all. */
  lemma RestoredNeverSatisfies(required: ComponentState)
    ensures !StateSatisfies(RevalidationRequired, required)
  {
  }

  /** Whatever admits relies, for each requirement that is not optional, on a record that is strong
      enough and fresh. */
  lemma AdmissionRests(engine: EngineDefinition, rs: seq<ProfileRequirement>, ev: seq<Evidence>, now: u64,
      r: ProfileRequirement)
    requires Outlook(engine, rs, ev, now).Admits() && r in rs && !r.kind.Optional?
    ensures var b := Best(ev, r.category, r.subject, []);
            && b.Some? && StateSatisfies(ev[b.value].state, r.minState) && IsFresh(ev[b.value], now)
            && ev[b.value].state != RevalidationRequired
            && !CompatibilityMismatch(r, ev[b.value]) && !GenerationMismatch(engine, r, ev[b.value])
  {
    AdmitsAll(engine, rs, ev, now);
    assert Single(engine, r, ev, now).Admits();
    hide Outlook, Best, CompatibilityMismatch, GenerationMismatch, IsFresh;
  }

  /** The best record for a requirement is strong enough but of another compatibility or generation. */
  predicate BestMismatches(engine: EngineDefinition, r: ProfileRequirement, ev: seq<Evidence>)
  {
    var b := Best(ev, r.category, r.subject, []);
    && b.Some? && StateSatisfies(ev[b.value].state, r.minState)
    && (CompatibilityMismatch(r, ev[b.value]) || GenerationMismatch(engine, r, ev[b.value]))
  }

  /** An optional requirement is not always harmless: adding one to a profile changes whether the profile
      admits exactly when its best record is strong enough and mismatches. Absent, weak and stale records
      never matter. */
  lemma OptionalBlocks(engine: EngineDefinition, rs: seq<ProfileRequirement>, r: ProfileRequirement,
      ev: seq<Evidence>, now: u64)
    requires r.kind.Optional?
    ensures Outlook(engine, rs + [r], ev, now).Admits() <==>
            Outlook(engine, rs, ev, now).Admits() && !BestMismatches(engine, r, ev)
    ensures Outlook(engine, rs + [r], ev, now) ==
            if BestMismatches(engine, r, ev) then Blocked else Outlook(engine, rs, ev, now)
  {
    assert (rs + [r])[..|rs|] == rs;
    assert Single(engine, r, ev, now) == if BestMismatches(engine, r, ev) then Blocked else Ready;
    hide BestMismatches, Single;
  }

  /* ---- the outcomes and the lists, from the records alone ---- */

  /** The best record for a requirement exists and is strong enough. */
  predicate Backed(r: ProfileRequirement, ev: seq<Evidence>)
  {
    var b := Best(ev, r.category, r.subject, []);
    b.Some? && StateSatisfies(ev[b.value].state, r.minState)
  }

  /** It is also of the right compatibility and generation. */
  predicate Fitting(engine: EngineDefinition, r: ProfileRequirement, ev: seq<Evidence>)
  {
    var b := Best(ev, r.category, r.subject, []);
    Backed(r, ev) && !CompatibilityMismatch(r, ev[b.value]) && !GenerationMismatch(engine, r, ev[b.value])
  }

  /** And it is fresh. */
  predicate Served(engine: EngineDefinition, r: ProfileRequirement, ev: seq<Evidence>, now: u64)
  {
    var b := Best(ev, r.category, r.subject, []);
    Fitting(engine, r, ev) && IsFresh(ev[b.value], now)
  }

  /** A record must back the requirement. */
  predicate Binding(r: ProfileRequirement)
  {
    r.kind.Required? || r.kind.PermittedFallback?
  }

  /** Nothing that blocks: a binding requirement fits, and an optional one does not mismatch. */
  predicate Harmless(engine: EngineDefinition, r: ProfileRequirement, ev: seq<Evidence>)
  {
    if Binding(r) then Fitting(engine, r, ev) else r.kind.Optional? && !BestMismatches(engine, r, ev)
  }

  /** What one requirement comes out as, in these terms. */
  lemma JudgedExactly(engine: EngineDefinition, r: ProfileRequirement, ev: seq<Evidence>, now: u64)
    ensures var v := Judge(engine, r, ev, now);
            && (v.Alone().Blocked? <==> !Harmless(engine, r, ev))
            && (v.TooOld? <==> Binding(r) && Fitting(engine, r, ev) && !Served(engine, r, ev, now))
            && (v.MetByFallback? <==> r.kind.PermittedFallback? && Served(engine, r, ev, now))
            && (v.Missing? <==> Binding(r) && !Backed(r, ev))
            && (v.Incompatible? <==> r.kind.Unsupported? || BestMismatches(engine, r, ev))
            && (v.Met? <==> (r.kind.Required? && Served(engine, r, ev, now))
                            || (r.kind.Optional? && Fitting(engine, r, ev)))
  {
    hide Best, StateSatisfies, CompatibilityMismatch, GenerationMismatch, IsFresh;
  }

  /** Exactly when a profile is READY, DEGRADED, STALE or BLOCKED: BLOCKED when a binding requirement lacks a
      strong record of the right compatibility and generation, an optional one has a strong record that
      mismatches, or one is unsupported; otherwise STALE when a binding one rests on a record that is not
      fresh; otherwise DEGRADED when some requirement permits a fallback; otherwise READY. */
  lemma OutcomeIsExact(engine: EngineDefinition, rs: seq<ProfileRequirement>, ev: seq<Evidence>, now: u64)
    ensures var o := Outlook(engine, rs, ev, now);
            var clear := forall r :: r in rs ==> Harmless(engine, r, ev);
            var timely := forall r :: r in rs && Binding(r) ==> Served(engine, r, ev, now);
            var fallback := exists r :: r in rs && r.kind.PermittedFallback?;
            && (o.Ready? <==> clear && timely && !fallback)
            && (o.Degraded? <==> clear && timely && fallback)
            && (o.Overdue? <==> clear && !timely)
            && (o.Blocked? <==> !clear)
  {
    forall r
      ensures Single(engine, r, ev, now).Blocked? <==> !Harmless(engine, r, ev)
      ensures Single(engine, r, ev, now).Overdue? <==>
                Binding(r) && Fitting(engine, r, ev) && !Served(engine, r, ev, now)
      ensures Single(engine, r, ev, now).Degraded? <==> r.kind.PermittedFallback? && Served(engine, r, ev, now)
      ensures Served(engine, r, ev, now) ==> Fitting(engine, r, ev)
    {
      JudgedExactly(engine, r, ev, now);
      hide Judge, Fitting, Harmless;
    }
    OutlookIsMinimum(engine, rs, ev, now);
    hide Outlook, Single, Served, Fitting, BestMismatches;
  }

  /** The requirements that satisfy a condition, in their order. */
  function Only(rs: seq<ProfileRequirement>, keep: ProfileRequirement -> bool): seq<ProfileRequirement>
  {
    if rs == [] then []
    else Only(rs[..|rs| - 1], keep) + if keep(rs[|rs| - 1]) then [rs[|rs| - 1]] else []
  }

  lemma {:induction false} HavingIsOnly(engine: EngineDefinition, rs: seq<ProfileRequirement>, ev: seq<Evidence>,
      now: u64, vs: set<Verdict>, keep: ProfileRequirement -> bool)
    requires forall r :: keep(r) <==> Judge(engine, r, ev, now) in vs
    ensures Having(engine, rs, ev, now, vs) == Only(rs, keep)
    decreases |rs|
  {
    hide Judge;
    if rs != [] {
      HavingIsOnly(engine, rs[..|rs| - 1], ev, now, vs, keep);
    }
  }

  function ToSatisfied(engine: EngineDefinition, ev: seq<Evidence>, now: u64): ProfileRequirement -> bool
  {
    (r: ProfileRequirement) =>
      if Binding(r) then Served(engine, r, ev, now) else r.kind.Optional? && Fitting(engine, r, ev)
  }

  function ToMissing(ev: seq<Evidence>): ProfileRequirement -> bool
  {
    (r: ProfileRequirement) => Binding(r) && !Backed(r, ev)
  }

  function ToStale(engine: EngineDefinition, ev: seq<Evidence>, now: u64): ProfileRequirement -> bool
  {
    (r: ProfileRequirement) => Binding(r) && Fitting(engine, r, ev) && !Served(engine, r, ev, now)
  }

  function ToIncompatible(engine: EngineDefinition, ev: seq<Evidence>): ProfileRequirement -> bool
  {
    (r: ProfileRequirement) => r.kind.Unsupported? || BestMismatches(engine, r, ev)
  }

  function ToFallback(engine: EngineDefinition, ev: seq<Evidence>, now: u64): ProfileRequirement -> bool
  {
    (r: ProfileRequirement) => r.kind.PermittedFallback? && Served(engine, r, ev, now)
  }

  /** What each list names: satisfied, the binding requirements served and the optional ones that fit;
      missing, the binding ones without a strong record; stale, the binding ones whose fitting record is
      not fresh; incompatible, the unsupported ones and those whose strong record mismatches; and as
      fallback the last served one that permits it. */
  lemma ListsAreExact(engine: EngineDefinition, rs: seq<ProfileRequirement>, ev: seq<Evidence>, now: u64)
    ensures var l := ListsOf(engine, rs, ev, now);
            && l.satisfied == Only(rs, ToSatisfied(engine, ev, now))
            && l.missing == Only(rs, ToMissing(ev))
            && l.stale == Only(rs, ToStale(engine, ev, now))
            && l.incompatible == Only(rs, ToIncompatible(engine, ev))
            && l.fallback == Last(Only(rs, ToFallback(engine, ev, now)))
  {
    forall r
      ensures Judge(engine, r, ev, now) in {Met, MetByFallback} <==> ToSatisfied(engine, ev, now)(r)
      ensures Judge(engine, r, ev, now) in {Missing} <==> ToMissing(ev)(r)
      ensures Judge(engine, r, ev, now) in {TooOld} <==> ToStale(engine, ev, now)(r)
      ensures Judge(engine, r, ev, now) in {Incompatible} <==> ToIncompatible(engine, ev)(r)
      ensures Judge(engine, r, ev, now) in {MetByFallback} <==> ToFallback(engine, ev, now)(r)
    {
      JudgedExactly(engine, r, ev, now);
      hide Judge, Fitting, Backed, Served, BestMismatches;
    }
    hide Judge, ToSatisfied, ToMissing, ToStale, ToIncompatible, ToFallback, Having, Only;
    HavingIsOnly(engine, rs, ev, now, {Met, MetByFallback}, ToSatisfied(engine, ev, now));
    HavingIsOnly(engine, rs, ev, now, {Missing}, ToMissing(ev));
    HavingIsOnly(engine, rs, ev, now, {TooOld}, ToStale(engine, ev, now));
    HavingIsOnly(engine, rs, ev, now, {Incompatible}, ToIncompatible(engine, ev));
    HavingIsOnly(engine, rs, ev, now, {MetByFallback}, ToFallback(engine, ev, now));
  }

  /* ---- the three comparisons ---- */

  /** Strength is the order of the first six enumerators: a record satisfies a requirement exactly when
      both states are among them and its own is not the earlier one. */
  lemma StrengthIsOrder(actual: ComponentState, required: ComponentState)
    ensures StateSatisfies(actual, required) <==>
              required.Code() <= actual.Code() <= ComponentState.Verified.Code()
    ensures ComponentState.ALL[..6] == [Absent, Discovered, Available, Loading, Bound, Verified]
  {
  }

  /** A record that was observed in time is fresh from its observation until its age is used up, and never
      again; one without a limit always is, and one that was never observed never is. */
  lemma FreshUntil(e: Evidence, now: u64)
    ensures e.measured.maxAgeNs == 0 ==> IsFresh(e, now)
    ensures e.measured.maxAgeNs != 0 && e.measured.observedAtNs == 0 ==> !IsFresh(e, now)
    ensures e.measured.maxAgeNs != 0 && e.measured.observedAtNs != 0 ==>
              (IsFresh(e, now) <==> now - e.measured.maxAgeNs <= e.measured.observedAtNs <= now)
  {
  }

  /** Moving one generation of an engine makes a fitting record mismatch exactly for the requirements bound
      to that family, and only if the record is of another generation; the KV capacity of a record counts
      by being there at all, and allocations, resource claims and KV state are not compared. */
  lemma UpgradesMismatch(engine: EngineDefinition, r: ProfileRequirement, e: Evidence, g: u64)
    requires !GenerationMismatch(engine, r, e)
    ensures GenerationMismatch(engine.(model := engine.model.(generation := g)), r, e) <==>
              r.family.ModelFamily? && e.generations.model != g
    ensures GenerationMismatch(engine.(adapter := engine.adapter.(generation := g)), r, e) <==>
              r.family.AdapterFamily? && e.generations.adapter != g
    ensures GenerationMismatch(
              engine.(execution := engine.execution.(kernel := engine.execution.kernel.(generation := g))), r, e) <==>
              r.family.KernelFamily? && e.generations.kernel != g
    ensures GenerationMismatch(
              engine.(execution := engine.execution.(graph := engine.execution.graph.(generation := g))), r, e) <==>
              r.family.GraphFamily? && e.generations.graph != g
    ensures GenerationMismatch(engine.(claims := engine.claims.(dependencyGeneration := g)), r, e) <==>
              r.family.DependencyFamily? && e.generations.dependency != g
    ensures GenerationMismatch(engine, r, e.(generations := e.generations.(kvCapacity := g))) <==>
              r.family.KvCapacityFamily? && g == 0
  {
  }

  /** A key that a requirement does not name matches everything; one that it names matches itself alone. */
  lemma KeysMatch(r: ProfileRequirement, e: Evidence)
    ensures CompatibilityMismatch(r, e) <==>
              && r.compatibility.ns != [] && r.compatibility.value != []
              && (r.compatibility.ns != e.compatibility.ns || r.compatibility.value != e.compatibility.value)
  {
  }

  /** When one more record becomes the choice: it must be of the category, and of the subject and namespace
      if these are given, and be of a higher generation than the choice before, or as high and later. */
  lemma LaterRecordCounts(ev: seq<Evidence>, e: Evidence, category: ComponentCategory, subject: bytes, nspace: bytes)
    ensures var b := Best(ev, category, subject, nspace);
            var wins := && e.category == category && (subject == [] || e.subject == subject)
                        && (nspace == [] || e.nspace == nspace)
                        && (b.None? || e.evidenceGeneration > ev[b.value].evidenceGeneration
                            || (e.evidenceGeneration == ev[b.value].evidenceGeneration
                                && e.measured.observedAtNs > ev[b.value].measured.observedAtNs));
            Best(ev + [e], category, subject, nspace) == if wins then Some(|ev|) else b
  {
    assert (ev + [e])[..|ev|] == ev;
  }
}
