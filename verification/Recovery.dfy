/** serialize and load of runtime.cpp: what a restart keeps and what it takes back. */
module Recovery {
  import opened Prelude
  import opened Errors
  import opened Records
  import opened RuntimeState
  import opened RuntimeRuns
  import opened Conservative
  import Blob

  /** Iteration orders of the five hash tables that are written. */
  datatype Orders = Orders(engines: seq<u64>, profiles: seq<u64>, incarnations: seq<u64>, evidence: seq<u64>,
    replacements: seq<u64>)

  ghost predicate Iterates(o: Orders, s: State)
  {
    && Enumerates(o.engines, s.engines.Keys) && Enumerates(o.profiles, s.profiles.Keys)
    && Enumerates(o.incarnations, s.incarnations.Keys) && Enumerates(o.evidence, s.evidence.Keys)
    && Enumerates(o.replacements, s.replacements.Keys)
  }

  function Listed<T>(m: map<u64, T>, order: seq<u64>): seq<T>
    requires forall k :: k in order ==> k in m
  {
    if order == [] then [] else Listed(m, order[..|order| - 1]) + [m[order[|order| - 1]]]
  }

  function ListedEvidence(m: map<u64, seq<Evidence>>, order: seq<u64>): seq<Evidence>
    requires forall k :: k in order ==> k in m
  {
    if order == [] then [] else ListedEvidence(m, order[..|order| - 1]) + m[order[|order| - 1]]
  }

  /** What serialize writes. */
  ghost function Snapshot(s: State, o: Orders): PersistentState
    requires Iterates(o, s)
  {
    PersistentState(s.epoch, s.authority, s.registrationCounter, Listed(s.engines, o.engines),
      Listed(s.profiles, o.profiles), Listed(s.incarnations, o.incarnations), ListedEvidence(s.evidence, o.evidence),
      Listed(s.replacements, o.replacements), s.costHistory)
  }

  /** load: a blob that is refused leaves everything as it was. */
  function LoadBlob(s: State, blob: bytes): Effect
  {
    match Blob.Decode(blob)
    case Refused(_) => (s, Threw(PersistenceCorrupt))
    case Accepted(saved) => (Load(s, saved), Done(0))
  }

  /* ---- every record is found under its own identity ---- */

  ghost predicate KeyedBy<T(!new)>(m: map<u64, T>, key: T -> u64)
  {
    forall k :: k in m ==> key(m[k]) == k
  }

  ghost predicate EvidenceKeyed(s: State)
  {
    forall k :: k in s.evidence ==> forall e :: e in s.evidence[k] ==> e.origin.incarnationId == k
  }

  ghost predicate DefinitionsKeyed(s: State)
  {
    KeyedBy(s.engines, EngineKey) && KeyedBy(s.profiles, ProfileKey) && KeyedBy(s.replacements, ReplacementKey)
  }

  ghost predicate WellKeyed(s: State)
  {
    Keyed(s) && DefinitionsKeyed(s) && EvidenceKeyed(s)
  }

  /* ---- rebuilding a table from any listing of it ---- */

  lemma {:induction false} TableOfListed<T(!new)>(m: map<u64, T>, order: seq<u64>, key: T -> u64)
    requires KeyedBy(m, key) && forall k :: k in order ==> k in m
    ensures Table(Listed(m, order), key) == map k | k in order :: m[k]
    decreases |order|
  {
    if order != [] {
      var n := |order| - 1;
      var xs := Listed(m, order[..n]);
      TableOfListed(m, order[..n], key);
      assert (xs + [m[order[n]]])[..|xs|] == xs;
      assert order == order[..n] + [order[n]];
    }
  }

  lemma TableRebuilt<T(!new)>(m: map<u64, T>, order: seq<u64>, key: T -> u64)
    requires KeyedBy(m, key) && Enumerates(order, m.Keys)
    ensures Table(Listed(m, order), key) == m
  {
    TableOfListed(m, order, key);
    hide Table, Listed;
    assert (map k | k in order :: m[k]) == m;
  }

  function RestoredTable(m: map<u64, Incarnation>): map<u64, Incarnation>
  {
    map k | k in m :: RestoreIncarnation(m[k])
  }

  lemma {:induction false} RestoreListed(m: map<u64, Incarnation>, order: seq<u64>)
    requires forall k :: k in order ==> k in m
    ensures RestoreAll(Listed(m, order)) == Listed(RestoredTable(m), order)
    decreases |order|
  {
    if order != [] {
      var n := |order| - 1;
      var xs := Listed(m, order[..n]);
      RestoreListed(m, order[..n]);
      hide RestoreIncarnation;
      assert RestoreAll(xs + [m[order[n]]]) == RestoreAll(xs) + [RestoreIncarnation(m[order[n]])];
    }
  }

  /** The incarnation table after a restart: the same records, each taken back to revalidating. */
  lemma IncarnationsRebuilt(m: map<u64, Incarnation>, order: seq<u64>)
    requires KeyedBy(m, IncarnationKey) && Enumerates(order, m.Keys)
    ensures Table(RestoreAll(Listed(m, order)), IncarnationKey) == RestoredTable(m)
  {
    RestoreListed(m, order);
    hide RestoreAll, Listed, Table, Enumerates;
    TableRebuilt(RestoredTable(m), order, IncarnationKey);
  }

  /* ---- evidence ---- */

  function RestoredEvidence(es: seq<Evidence>): seq<Evidence>
  {
    seq(|es|, j requires 0 <= j < |es| => RestoreEvidence(es[j]))
  }

  function ListAt(m: map<u64, seq<Evidence>>, k: u64): seq<Evidence>
  {
    if k in m then m[k] else []
  }

  lemma TableOfOneMore(xs: seq<Evidence>, e: Evidence, k: u64)
    ensures ListAt(EvidenceTable(xs + [e]), k) ==
            ListAt(EvidenceTable(xs), k) + if k == e.origin.incarnationId then [RestoreEvidence(e)] else []
  {
    assert (xs + [e])[..|xs|] == xs;
    hide RestoreEvidence;
  }

  lemma {:induction false} TableAppends(xs: seq<Evidence>, ys: seq<Evidence>, key: u64, k: u64)
    requires forall e :: e in ys ==> e.origin.incarnationId == key
    ensures ListAt(EvidenceTable(xs + ys), k) ==
            ListAt(EvidenceTable(xs), k) + if k == key then RestoredEvidence(ys) else []
    decreases |ys|
  {
    if ys == [] {
      assert xs + ys == xs;
    } else {
      var n := |ys| - 1;
      assert xs + ys == xs + ys[..n] + [ys[n]] && ys[n] in ys;
      assert RestoredEvidence(ys) == RestoredEvidence(ys[..n]) + [RestoreEvidence(ys[n])];
      hide RestoreEvidence, RestoredEvidence, EvidenceTable, ListAt;
      TableAppends(xs, ys[..n], key, k);
      TableOfOneMore(xs + ys[..n], ys[n], k);
    }
  }

  /** Each incarnation gets its own records back in their old order, whatever the order of the lists. */
  lemma {:induction false} EvidenceRebuilt(s: State, order: seq<u64>, k: u64)
    requires EvidenceKeyed(s) && (forall x :: x in order ==> x in s.evidence)
    requires forall i, j :: 0 <= i < j < |order| ==> order[i] != order[j]
    ensures ListAt(EvidenceTable(ListedEvidence(s.evidence, order)), k) ==
            if k in order then RestoredEvidence(s.evidence[k]) else []
    decreases |order|
  {
    if order != [] {
      var n := |order| - 1;
      EvidenceRebuilt(s, order[..n], k);
      TableAppends(ListedEvidence(s.evidence, order[..n]), s.evidence[order[n]], order[n], k);
      assert order == order[..n] + [order[n]] && order[n] !in order[..n];
      hide EvidenceTable, RestoredEvidence;
    }
  }

  /* ---- a restart ---- */

  /** What a restart of s inside the runtime t0 amounts to. */
  ghost predicate ConservativeCopy(s: State, t: State)
  {
    && t.epoch == OrElse(s.epoch, 1) && t.authority == OrElse(s.authority, 1)
    && t.registrationCounter == s.registrationCounter
    && SameDefinitions(s, t) && t.costHistory == s.costHistory
    && t.incarnations == RestoredTable(s.incarnations)
    && (forall k :: EvidenceOf(t, k) == RestoredEvidence(EvidenceOf(s, k)))
    && t.currentByEngine == map[]
  }

  /** For any iteration order of the hash tables, loading what was saved rebuilds the conservative
      copy, in whatever runtime it is loaded. */
  lemma RestartIsConservative(s: State, o: Orders, t0: State)
    requires WellKeyed(s) && Iterates(o, s)
    ensures ConservativeCopy(s, Load(t0, Snapshot(s, o)))
  {
    var t := Load(t0, Snapshot(s, o));
    LoadFields(t0, Snapshot(s, o));
    RebuiltEvidence(s, o, t);
    hide Load, Table, EvidenceTable, RestoreAll, Listed, ListedEvidence, KeyedBy, EvidenceKeyed, RestoredEvidence,
      RestoredTable, KeepsFences, SameDrains, EvidenceOf, AddsNoCurrent, KeepsAttempts, SameActivations;
    TableRebuilt(s.engines, o.engines, EngineKey);
    TableRebuilt(s.profiles, o.profiles, ProfileKey);
    TableRebuilt(s.replacements, o.replacements, ReplacementKey);
    IncarnationsRebuilt(s.incarnations, o.incarnations);
  }

  lemma RebuiltEvidence(s: State, o: Orders, t: State)
    requires EvidenceKeyed(s) && Enumerates(o.evidence, s.evidence.Keys)
    requires t.evidence == EvidenceTable(ListedEvidence(s.evidence, o.evidence))
    ensures forall k :: EvidenceOf(t, k) == RestoredEvidence(EvidenceOf(s, k))
  {
    hide EvidenceTable, ListedEvidence, EvidenceKeyed, RestoredEvidence;
    forall k
      ensures EvidenceOf(t, k) == RestoredEvidence(EvidenceOf(s, k))
    {
      EvidenceRebuilt(s, o.evidence, k);
      NothingRestored();
    }
  }

  lemma NothingRestored()
    ensures RestoredEvidence([]) == []
  {
  }

  /** The same through the bytes of the file, whenever the format can hold the state. */
  lemma SavedAndLoaded(s: State, o: Orders, t0: State)
    requires WellKeyed(s) && Iterates(o, s)
    requires Blob.Writable(Snapshot(s, o)) && Blob.CountsFit(Snapshot(s, o))
    requires |Blob.Encode(Snapshot(s, o))| <= Blob.MAX_BYTES
    ensures LoadBlob(t0, Blob.Encode(Snapshot(s, o))).1 == Done(0)
    ensures ConservativeCopy(s, LoadBlob(t0, Blob.Encode(Snapshot(s, o))).0)
  {
    Blob.RoundTrip(Snapshot(s, o));
    hide Snapshot, ConservativeCopy, Blob.Encode, Blob.Decode, Blob.Writable, Blob.CountsFit, Load;
    RestartIsConservative(s, o, t0);
  }

  /** Every incarnation waits for revalidation after a restart: none is current, none holds an
      activation, and each record of evidence is distrusted. */
  lemma NothingServesAfterRestart(s: State, t: State, k: u64)
    requires ConservativeCopy(s, t)
    ensures k in t.incarnations <==> k in s.incarnations
    ensures k in t.incarnations ==>
              var i := t.incarnations[k];
              !i.isCurrent && i.state.recovery.Revalidating? && i.state.activation.Inactive?
              && i.readinessGeneration == s.incarnations[k].readinessGeneration
              && i.state.registration == s.incarnations[k].state.registration
              && i.state.lifecycle == s.incarnations[k].state.lifecycle
    ensures |EvidenceOf(t, k)| == |EvidenceOf(s, k)|
    ensures forall j :: 0 <= j < |EvidenceOf(t, k)| ==>
              EvidenceOf(t, k)[j] == EvidenceOf(s, k)[j].(state := RevalidationRequired)
  {
    hide EvidenceOf;
  }

  /** A copy of a copy adds nothing: a second restart without work in between changes no record. */
  lemma RestartTwice(s: State, t: State, u: State)
    requires ConservativeCopy(s, t) && ConservativeCopy(t, u)
    ensures ConservativeCopy(s, u) && u.incarnations == t.incarnations
  {
    forall k | k in s.incarnations
      ensures RestoreIncarnation(RestoreIncarnation(s.incarnations[k])) == RestoreIncarnation(s.incarnations[k])
    {
    }
    hide RestoreIncarnation;
    assert u.incarnations == t.incarnations;
    hide RestoredTable;
    forall k
      ensures EvidenceOf(u, k) == RestoredEvidence(EvidenceOf(s, k))
    {
      assert EvidenceOf(u, k) == RestoredEvidence(RestoredEvidence(EvidenceOf(s, k)));
      hide EvidenceOf;
      assert RestoredEvidence(RestoredEvidence(EvidenceOf(s, k))) == RestoredEvidence(EvidenceOf(s, k));
    }
    hide EvidenceOf, RestoredEvidence;
  }

  /** The set of fenced boots is not saved: a boot is fenced after a restart exactly when the runtime
      that loads already had it fenced; and so, in a new runtime, every boot gets a permit again. */
  lemma FencesAreForgotten(s: State, o: Orders, t0: State, options: Options, worker: u64, boot: u64)
    requires Iterates(o, s)
    ensures BootFenced(Load(t0, Snapshot(s, o)), worker, boot) <==> BootFenced(t0, worker, boot)
    ensures boot >= 1 && options.maxPermits >= 1 ==>
              IssuePermit(Load(Initial(options), Snapshot(s, o)), worker, boot).1.Done?
  {
    var t := Load(Initial(options), Snapshot(s, o));
    LoadPermits(Initial(options), Snapshot(s, o));
    assert KeepsFences(Initial(options), t);
    hide Load, Snapshot, IssuePermit;
    PermitIssued(t, worker, boot);
  }

  lemma LoadPermits(s: State, saved: PersistentState)
    ensures Load(s, saved).permits == s.permits
  {
    hide Table, EvidenceTable, RestoreAll;
  }

  lemma PermitIssued(s: State, worker: u64, boot: u64)
    ensures boot >= 1 && !BootFenced(s, worker, boot) && |s.permits| < s.options.maxPermits ==>
              IssuePermit(s, worker, boot).1.Done?
  {
    hide BootFenced, SameDefinitions, SameServing, SameEvidence, KeepsFences, Continues, AddsNoCurrent, KeepsAttempts,
      SameActivations;
  }

  /* ---- every reachable state is well keyed ---- */

  lemma EnginesStayKeyed(s: State, def: EngineDefinition)
    requires DefinitionsKeyed(s)
    ensures DefinitionsKeyed(DefineEngine(s, def).0)
  {
    hide SameUses, SameDrains, SameServing, SameEvidence, KeepsFences, KeepsClosed, Continues, AddsNoCurrent,
      KeepsAttempts, SameActivations;
  }

  lemma EnginesConfigured(s: State, engineId: u64, generation: u64, order: seq<u64>)
    requires DefinitionsKeyed(s)
    ensures DefinitionsKeyed(UpdateEngineConfig(s, engineId, generation, order).0)
  {
    hide SameUses, SameDrains, SameServing, SameEvidence, KeepsFences, KeepsClosed, Continues, InvalidateAll,
      AddsNoCurrent, KeepsAttempts, SameActivations;
  }

  lemma ProfilesStayKeyed(s: State, profile: ReadinessProfile)
    requires DefinitionsKeyed(s)
    ensures DefinitionsKeyed(DefineProfile(s, profile).0)
  {
    hide SameUses, SameDrains, SameServing, SameEvidence, KeepsFences, KeepsClosed, Continues, AddsNoCurrent,
      KeepsAttempts, SameActivations;
  }

  lemma ReplacementsStayKeyed(s: State, plan: ReplacementPlan)
    requires DefinitionsKeyed(s)
    ensures DefinitionsKeyed(BeginReplacement(s, plan).0)
  {
    hide SameUses, SameDrains, SameServing, SameEvidence, KeepsFences, KeepsClosed, Continues, BeginReplacementCheck,
      AddsNoCurrent, KeepsAttempts, SameActivations;
  }

  lemma RetirementStaysKeyed(s: State, rid: u64)
    requires DefinitionsKeyed(s)
    ensures DefinitionsKeyed(RetireOldIncarnation(s, rid).0)
  {
    hide SameUses, SameDrains, SameServing, SameEvidence, KeepsFences, KeepsClosed, Continues, RetireIn,
      AddsNoCurrent, KeepsAttempts, SameActivations;
  }

  lemma CutoverStaysKeyed(s: State, rid: u64)
    requires DefinitionsKeyed(s)
    ensures DefinitionsKeyed(CommitCutover(s, rid).0)
  {
    hide SameUses, SameDrains, SameServing, SameEvidence, KeepsFences, KeepsClosed, Continues, DisplaceOld, FenceOld,
      PromoteOne, AddsNoCurrent, KeepsAttempts, SameActivations;
  }

  lemma LoadIsKeyed(s: State, saved: PersistentState)
    ensures WellKeyed(Load(s, saved))
  {
    LoadFields(s, saved);
    hide Load, RestoreAll, SameDrains, KeepsFences, Table, EvidenceTable, AddsNoCurrent, KeepsAttempts,
      SameActivations;
    TableIsKeyed(saved.engines, EngineKey);
    TableIsKeyed(saved.profiles, ProfileKey);
    TableIsKeyed(saved.replacements, ReplacementKey);
    TableIsKeyed(RestoreAll(saved.incarnations), IncarnationKey);
    TableDistrusts(saved.evidence);
  }

  lemma DefinitionsStayKeyed(s: State, op: Op)
    requires DefinitionsKeyed(s) && !op.OpLoad?
    ensures DefinitionsKeyed(Step(s, op).0)
  {
    hide Step, DefineEngine, UpdateEngineConfig, DefineProfile, BeginReplacement, CommitCutover, RetireOldIncarnation,
      SameUses, SameDrains, SameServing, SameEvidence, KeepsFences, KeepsClosed, Continues, KeyedBy, AddsNoCurrent,
      KeepsAttempts, SameActivations;
    if op.OpDefineEngine? {
      StepDefineEngine(s, op);
      EnginesStayKeyed(s, op.def);
    } else if op.OpUpdateEngineConfig? {
      StepUpdateEngineConfig(s, op);
      EnginesConfigured(s, op.engineId, op.generation, op.order);
    } else if op.OpDefineProfile? {
      StepDefineProfile(s, op);
      ProfilesStayKeyed(s, op.profile);
    } else if op.OpBeginReplacement? {
      StepBeginReplacement(s, op);
      ReplacementsStayKeyed(s, op.plan);
    } else if op.OpCommitCutover? {
      StepCutover(s, op);
      CutoverStaysKeyed(s, op.rid);
    } else if op.OpRetireOld? {
      StepRetireOld(s, op);
      RetirementStaysKeyed(s, op.rid);
    }
  }

  lemma EvidenceStaysKeyed(s: State, op: Op)
    requires EvidenceKeyed(s) && !op.OpLoad?
    ensures EvidenceKeyed(Step(s, op).0)
  {
    hide Step, Publish, InvalidateComponents, PublishCheck, SameUses, SameDrains, SameServing, KeepsFences,
      KeepsClosed, Continues, SameDefinitions, AddsNoCurrent, KeepsAttempts, SameActivations;
    if op.OpPublish? {
      StepPublish(s, op);
      PublishShape(s, op.ev, op.now);
    } else if op.OpInvalidateComponents? {
      StepInvalidate(s, op);
      InvalidateShape(s, op.id, op.reason);
    }
  }

  /** In every run, whatever it contains, all records stay under their own identities. */
  lemma WellKeyedRun(s: State, ops: seq<Op>)
    requires WellKeyed(s)
    ensures WellKeyed(Run(s, ops))
  {
    KeyedRun(s, ops);
    RecordsKeyedRun(s, ops);
    hide Run, Keyed, DefinitionsKeyed, EvidenceKeyed;
  }

  lemma {:induction false} RecordsKeyedRun(s: State, ops: seq<Op>)
    requires DefinitionsKeyed(s) && EvidenceKeyed(s)
    ensures DefinitionsKeyed(Run(s, ops)) && EvidenceKeyed(Run(s, ops))
    decreases |ops|
  {
    if ops != [] {
      RecordsKeyedStep(s, ops[0]);
      hide Step, DefinitionsKeyed, EvidenceKeyed;
      RecordsKeyedRun(Step(s, ops[0]).0, ops[1..]);
    }
  }

  lemma RecordsKeyedStep(s: State, op: Op)
    requires DefinitionsKeyed(s) && EvidenceKeyed(s)
    ensures DefinitionsKeyed(Step(s, op).0) && EvidenceKeyed(Step(s, op).0)
  {
    hide Step, Load, DefinitionsKeyed, EvidenceKeyed, SameUses, SameDrains, SameServing, SameEvidence, KeepsFences,
      KeepsClosed, Continues, AddsNoCurrent, KeepsAttempts, SameActivations;
    if op.OpLoad? {
      StepLoad(s, op);
      LoadIsKeyed(s, op.saved);
    } else {
      DefinitionsStayKeyed(s, op);
      EvidenceStaysKeyed(s, op);
    }
  }
}
