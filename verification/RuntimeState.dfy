/** The residency runtime of runtime.cpp as one state and one function per mutating operation.
    An operation returns the new state and what the caller sees: an id, or the error that was
    thrown. What an operation had already changed before it threw stays changed. */
module RuntimeState {
  import opened Prelude
  import opened Errors
  import opened Records
  import opened ReadinessRules

  datatype Options = Options(
    maxEngines: u32, maxIncarnations: u32, maxComponentEvidence: u32, maxPendingPreparation: u32,
    maxPlanSteps: u32, maxActiveUses: u32, maxCostSamples: u32, maxPermits: u32)

  datatype Counters = Counters(
    engine: u64, profile: u64, incarnation: u64, evidence: u64, use: u64, attempt: u64, plan: u64,
    activation: u64, replacement: u64, permit: u64)

  /** What a caller asks for: the profile and the generations that its token names. */
  datatype Wanted = Wanted(profileId: u64, readinessGeneration: u64, activationGeneration: u64, executionId: u64)

  datatype WorkOutcome = Completed | WorkFailed | UnknownOutcome | InvalidatedOutcome

  /** How and when a use is closed. */
  datatype Closing = Closing(outcome: WorkOutcome, detail: bytes, now: u64)

  datatype Use = Use(
    engineId: u64, engineGeneration: u64, incarnationId: u64, incarnationGeneration: u64, wanted: Wanted,
    released: bool, outcome: WorkOutcome, admittedAtNs: u64, releasedAtNs: u64, detail: bytes)

  datatype Drain = Drain(phase: DrainPhase, generation: u64, fenced: bool, ack: bool)

  const NO_DRAIN := Drain(NoDrain, 0, false, false)

  datatype Permit = Permit(epoch: u64, workerId: u64, workerBoot: u64, sequence: u64, authority: u64, consumed: bool)

  /** A step prepares what a requirement found missing, or runs the warmup. */
  datatype PlanStep = Prepare(missing: ProfileRequirement) | WarmUp

  datatype Plan = Plan(
    incarnationId: u64, incarnationGeneration: u64, profileId: u64, profileGeneration: u64, target: DesiredResidency,
    epoch: u64, authority: u64, sourceBoot: u64, steps: seq<PlanStep>)

  datatype Attempt = Attempt(
    planId: u64, incarnationId: u64, profileId: u64, epoch: u64, authority: u64, state: PreparationState,
    cancelled: bool, publishedReady: bool)

  /** A request to activate; a profile or slot of 0 is none. */
  datatype Request = Request(
    incarnationId: u64, profileId: u64, readinessGeneration: u64, standbyGeneration: u64, authority: u64, slotId: u64)

  datatype Activation = Activation(
    engineId: u64, engineGeneration: u64, incarnationId: u64, incarnationGeneration: u64, profileId: u64,
    readinessGeneration: u64, standbyGeneration: u64, slotId: u64, prior: ActivationState, current: bool)

  datatype State = State(
    options: Options, epoch: u64, authority: u64, registrationCounter: u64,
    engines: map<u64, EngineDefinition>, profiles: map<u64, ReadinessProfile>,
    incarnations: map<u64, Incarnation>, currentByEngine: map<u64, u64>, evidence: map<u64, seq<Evidence>>,
    activeAttempt: map<u64, u64>, attempts: map<u64, Attempt>, plans: map<u64, Plan>,
    activeUses: map<u64, Use>, activeUseCount: u64,
    slots: map<u64, u64>, activations: map<u64, Activation>, drains: map<u64, Drain>,
    replacements: map<u64, ReplacementPlan>, permits: map<u64, Permit>, consumed: set<u64>,
    fenced: map<u64, set<u64>>, costHistory: seq<CostComponent>, ids: Counters)

  datatype Ret = Done(id: u64) | Threw(code: ErrorCode)

  type Effect = (State, Ret)

  /** The state of a newly constructed runtime: ensure_epoch has started epoch 1. */
  function Initial(options: Options): State
  {
    State(options, 1, 1, 0, map[], map[], map[], map[], map[], map[], map[], map[], map[], 0, map[], map[], map[],
      map[], map[], {}, map[], [], Counters(0, 0, 0, 0, 0, 0, 0, 0, 0, 0))
  }

  /* ---- shared pieces ---- */

  /** Generation::next throws here instead of wrapping. */
  predicate Exhausted(g: u64)
  {
    g == TWO64 - 1
  }

  /** The generation after a next() that was tried: unchanged when it threw. */
  function Tried(g: u64): u64
  {
    if Exhausted(g) then g else g + 1
  }

  function Tell(g: u64, id: u64): Ret
  {
    if Exhausted(g) then Threw(GenerationExhausted) else Done(id)
  }

  /** A guard: the error is thrown when the condition fails. */
  function Need(condition: bool, code: ErrorCode): Outcome<ErrorCode>
  {
    if condition then Pass else Fail(code)
  }

  function Refuse(s: State, check: Outcome<ErrorCode>): Effect
    requires check.Fail?
  {
    (s, Threw(check.error))
  }

  predicate BootFenced(s: State, worker: u64, boot: u64)
  {
    worker in s.fenced && boot in s.fenced[worker]
  }

  /** A lifecycle that no longer counts as a live incarnation. */
  predicate Gone(l: ProcessLifecycle)
  {
    l.Lost? || l.Failed? || l.Retired?
  }

  predicate Fenced(i: Incarnation)
  {
    i.state.health.FencedHealth? || i.state.registration.FencedRegistration?
  }

  function EvidenceOf(s: State, id: u64): seq<Evidence>
  {
    if id in s.evidence then s.evidence[id] else []
  }

  function OutlookOf(s: State, p: ReadinessProfile, i: Incarnation, now: u64): ReadinessOutcome
    requires i.engineId in s.engines
  {
    ReadinessRules.Outlook(s.engines[i.engineId], p.requirements, EvidenceOf(s, i.incarnationId), now)
  }

  function OpenUses(uses: map<u64, Use>): set<u64>
  {
    set u | u in uses && !uses[u].released
  }

  function OpenFor(uses: map<u64, Use>, id: u64): set<u64>
  {
    set u | u in uses && !uses[u].released && uses[u].incarnationId == id
  }

  /** The 32-bit count of open uses that three operations recompute. */
  function Remaining(uses: map<u64, Use>, id: u64): u32
  {
    |OpenFor(uses, id)| % TWO32
  }

  /** All (incarnation, position) pairs of stored evidence. */
  function EvidenceSlots(evidence: map<u64, seq<Evidence>>): set<(u64, int)>
  {
    set k, j | k in evidence && 0 <= j < |evidence[k]| :: (k, j)
  }

  predicate AdmissionClosed(s: State, id: u64)
  {
    id in s.drains && s.drains[id].fenced
  }

  function DrainOf(s: State, id: u64): Drain
  {
    if id in s.drains then s.drains[id] else NO_DRAIN
  }

  function PutIf<T>(m: map<u64, T>, condition: bool, key: u64, value: T): map<u64, T>
  {
    if condition then m[key := value] else m
  }

  function ClearIf<T>(m: map<u64, T>, condition: bool): map<u64, T>
  {
    if condition then map[] else m
  }

  /* ---- what an operation may leave alone ---- */

  predicate SameUses(s: State, t: State)
  {
    t.activeUses == s.activeUses && t.activeUseCount == s.activeUseCount && t.ids.use == s.ids.use
  }

  predicate SameDrains(s: State, t: State)
  {
    t.drains == s.drains
  }

  /** Admission that was fenced stays fenced. */
  ghost predicate KeepsClosed(s: State, t: State)
  {
    forall k :: AdmissionClosed(s, k) ==> AdmissionClosed(t, k)
  }

  predicate SameServing(s: State, t: State)
  {
    SameUses(s, t) && SameDrains(s, t)
  }

  /** The limits and the fenced boots are as before. */
  predicate KeepsFences(s: State, t: State)
  {
    t.options == s.options && t.fenced == s.fenced
  }

  predicate SameDefinitions(s: State, t: State)
  {
    t.engines == s.engines && t.profiles == s.profiles && t.replacements == s.replacements
  }

  /** Epoch and authority never go back, and the authority changes only with the epoch; permits stay, and
      those consumed stay consumed. */
  ghost predicate KeepsAuthority(s: State, t: State)
  {
    && s.epoch <= t.epoch && s.authority <= t.authority && (t.epoch == s.epoch ==> t.authority == s.authority)
    && t.ids.permit == s.ids.permit
    && t.permits.Keys == s.permits.Keys
    && forall p :: p in s.permits ==>
         t.permits[p] == s.permits[p].(consumed := s.permits[p].consumed || t.permits[p].consumed)
  }

  predicate SameEvidence(s: State, t: State)
  {
    t.evidence == s.evidence
  }

  /** What no operation but load changes about an incarnation: its identities; and its readiness
      generation never goes down. */
  predicate Evolves(a: Incarnation, b: Incarnation)
  {
    && b.incarnationId == a.incarnationId && b.engineId == a.engineId
    && b.workerId == a.workerId && b.workerBoot == a.workerBoot
    && b.coordinatorEpoch == a.coordinatorEpoch && b.authorityGeneration == a.authorityGeneration
    && a.readinessGeneration <= b.readinessGeneration
  }

  /** Fenced at registration, and neither current nor running. */
  predicate Down(i: Incarnation)
  {
    i.state.registration.FencedRegistration? && !i.isCurrent && !i.state.lifecycle.Running?
  }

  /** Starting or running. */
  predicate Up(i: Incarnation)
  {
    i.state.lifecycle.Starting? || i.state.lifecycle.Running?
  }

  /** An evolution in which nothing that was down or not up comes up. */
  predicate Declines(a: Incarnation, b: Incarnation)
  {
    Evolves(a, b) && (Down(a) ==> Down(b)) && (Up(b) ==> Up(a))
  }

  /** A decline in which it does not become current. */
  predicate Fades(a: Incarnation, b: Incarnation)
  {
    Declines(a, b) && (b.isCurrent ==> a.isCurrent)
  }

  /** The same incarnations, none of which became current or changed its engine. */
  ghost predicate AddsNoCurrent(s: State, t: State)
  {
    && t.incarnations.Keys == s.incarnations.Keys
    && forall k :: k in s.incarnations ==>
         && t.incarnations[k].engineId == s.incarnations[k].engineId
         && (t.incarnations[k].isCurrent ==> s.incarnations[k].isCurrent)
  }

  /** The same attempts, of which those cancelled stay cancelled. */
  ghost predicate KeepsAttempts(s: State, t: State)
  {
    && t.attempts.Keys == s.attempts.Keys && t.ids.attempt == s.ids.attempt
    && forall a :: a in s.attempts && s.attempts[a].cancelled ==> t.attempts[a].cancelled
  }

  /** The same activations; and the slots are held as before, unless a new epoch freed them all. */
  predicate SameActivations(s: State, t: State)
  {
    && t.activations == s.activations && t.ids.activation == s.ids.activation
    && (t.slots == s.slots || (s.epoch < t.epoch && t.slots == map[]))
  }

  /** The same incarnations, each declined. */
  ghost predicate Continues(s: State, t: State)
  {
    && t.incarnations.Keys == s.incarnations.Keys && t.ids.incarnation == s.ids.incarnation
    && forall k :: k in s.incarnations ==> Declines(s.incarnations[k], t.incarnations[k])
  }

  /* ---- definitions ---- */

  function BumpIf(counter: u64, condition: bool): u64
  {
    if condition then Bump(counter) else counter
  }

  function OrElse(given: u64, otherwise: u64): u64
  {
    if given == 0 then otherwise else given
  }

  function NumberEngine(def: EngineDefinition, generation: u64): EngineDefinition
  {
    def.(engineGeneration := OrElse(def.engineGeneration, generation),
         configGeneration := OrElse(def.configGeneration, 1))
  }

  function NumberProfile(p: ReadinessProfile, id: u64): ReadinessProfile
  {
    p.(profileId := OrElse(p.profileId, id), profileGeneration := OrElse(p.profileGeneration, 1))
  }

  function DefineEngine(s: State, def: EngineDefinition): (r: Effect)
    ensures KeepsAttempts(s, r.0) && SameActivations(s, r.0) && AddsNoCurrent(s, r.0)
    ensures KeepsAuthority(s, r.0)
    ensures SameServing(s, r.0) && SameEvidence(s, r.0) && KeepsFences(s, r.0) && Continues(s, r.0)
  {
    var counter := BumpIf(s.ids.engine, def.engineGeneration == 0);
    var d := NumberEngine(def, Bump(counter));
    var room := |s.engines| < s.options.maxEngines;
    if def.engineId == 0 then (s, Threw(InvalidArgument))
    else (s.(ids := s.ids.(engine := counter), engines := PutIf(s.engines, room, d.engineId, d)),
          if room then Done(d.engineId) else Threw(BoundsExceeded))
  }

  /** The state the source writes before it asks for the next readiness generation. */
  function InvalidateOne(i: Incarnation): (r: Incarnation)
    ensures Fades(i, r)
    ensures r.readinessGeneration == Tried(i.readinessGeneration)
  {
    i.(state := i.state.(preparation := Invalidated), readinessGeneration := Tried(i.readinessGeneration))
  }

  /** The loop of update_engine_config; an exhausted generation stops it half way. */
  function InvalidateAll(incs: map<u64, Incarnation>, order: seq<u64>, engineId: u64)
    : (r: (map<u64, Incarnation>, Ret))
    ensures r.0.Keys == incs.Keys
    ensures forall k :: k in incs ==> Fades(incs[k], r.0[k])
    decreases |order|
  {
    if order == [] then (incs, Done(0))
    else
      var k := order[0];
      if k !in incs || incs[k].engineId != engineId then InvalidateAll(incs, order[1..], engineId)
      else if Exhausted(incs[k].readinessGeneration) then
        (incs[k := InvalidateOne(incs[k])], Threw(GenerationExhausted))
      else InvalidateAll(incs[k := InvalidateOne(incs[k])], order[1..], engineId)
  }

  function UpdateEngineConfigCheck(s: State, engineId: u64, generation: u64): Outcome<ErrorCode>
  {
    if engineId !in s.engines then Fail(UnknownEngine) else
    Need(generation > s.engines[engineId].configGeneration, StaleGeneration)
  }

  /** `order` is the iteration order of the incarnation table. */
  function UpdateEngineConfig(s: State, engineId: u64, generation: u64, order: seq<u64>): (r: Effect)
    ensures KeepsAttempts(s, r.0) && SameActivations(s, r.0) && AddsNoCurrent(s, r.0)
    ensures KeepsAuthority(s, r.0)
    ensures SameServing(s, r.0) && SameEvidence(s, r.0) && KeepsFences(s, r.0) && Continues(s, r.0)
  {
    var check := UpdateEngineConfigCheck(s, engineId, generation);
    if check.Fail? then Refuse(s, check) else
    var out := InvalidateAll(s.incarnations, order, engineId);
    (s.(engines := s.engines[engineId := s.engines[engineId].(configGeneration := generation)],
        incarnations := out.0), out.1)
  }

  function DefineProfile(s: State, profile: ReadinessProfile): (r: Effect)
    ensures KeepsAttempts(s, r.0) && SameActivations(s, r.0) && AddsNoCurrent(s, r.0)
    ensures KeepsAuthority(s, r.0)
    ensures SameServing(s, r.0) && SameEvidence(s, r.0) && KeepsFences(s, r.0) && Continues(s, r.0)
  {
    var counter := BumpIf(s.ids.profile, profile.profileId == 0);
    var p := NumberProfile(profile, Bump(counter));
    var known := p.engineId in s.engines;
    (s.(ids := s.ids.(profile := counter), profiles := PutIf(s.profiles, known, p.profileId, p)),
     if known then Done(p.profileId) else Threw(UnknownEngine))
  }

  /* ---- registration and authority ---- */

  function IssuePermitCheck(s: State, worker: u64, boot: u64): Outcome<ErrorCode>
  {
    if boot < 1 then Fail(InvalidArgument) else
    :- Need(!BootFenced(s, worker, boot), FencedWorker);
    Need(|s.permits| < s.options.maxPermits, BoundsExceeded)
  }

  function IssuePermit(s: State, worker: u64, boot: u64): (r: Effect)
    ensures KeepsAttempts(s, r.0) && SameActivations(s, r.0) && AddsNoCurrent(s, r.0)
    ensures SameDefinitions(s, r.0) && SameServing(s, r.0) && SameEvidence(s, r.0)
    ensures KeepsFences(s, r.0) && Continues(s, r.0)
  {
    var check := IssuePermitCheck(s, worker, boot);
    if check.Fail? then Refuse(s, check) else
    var counter := Bump(s.ids.permit);
    var id := Bump(counter);
    var sequence := Bump(s.registrationCounter);
    (s.(ids := s.ids.(permit := counter), registrationCounter := sequence,
        permits := s.permits[id := Permit(s.epoch, worker, boot, sequence, s.authority, false)]), Done(id))
  }

  predicate OfBoot(i: Incarnation, worker: u64, boot: u64)
  {
    i.workerId == worker && i.workerBoot == boot
  }

  /** A live incarnation of this worker boot is registered already. */
  predicate BootTaken(s: State, worker: u64, boot: u64)
  {
    exists k :: k in s.incarnations && OfBoot(s.incarnations[k], worker, boot)
                && !Gone(s.incarnations[k].state.lifecycle)
  }

  predicate EngineServed(s: State, engineId: u64)
  {
    engineId in s.currentByEngine && s.currentByEngine[engineId] in s.incarnations
    && !Gone(s.incarnations[s.currentByEngine[engineId]].state.lifecycle)
  }

  function RegisterCheck(s: State, inc: Incarnation, permitId: u64): Outcome<ErrorCode>
  {
    if permitId !in s.permits then Fail(RegistrationRejected) else
    var p := s.permits[permitId];
    :- Need(!p.consumed, RegistrationRejected);
    :- Need(OfBoot(inc, p.workerId, p.workerBoot), RegistrationRejected);
    :- Need(p.epoch == s.epoch, StaleEpoch);
    :- Need(!BootFenced(s, inc.workerId, inc.workerBoot), FencedWorker);
    :- Need(inc.engineId in s.engines, UnknownEngine);
    :- Need(!BootTaken(s, inc.workerId, inc.workerBoot), RegistrationRejected);
    Need(|s.incarnations| < s.options.maxIncarnations, BoundsExceeded)
  }

  /** What register_incarnation makes of the caller's record. */
  function AdmitOne(s: State, inc: Incarnation, id: u64, now: u64): Incarnation
  {
    inc.(incarnationId := id, incarnationGeneration := 1, coordinatorEpoch := s.epoch,
         authorityGeneration := s.authority, registration := Registered, readinessGeneration := 1,
         lastActivityNs := now, isCurrent := !EngineServed(s, inc.engineId),
         state := inc.state.(lifecycle := Starting, recovery := Nominal, registration := Registered))
  }

  function Register(s: State, inc: Incarnation, permitId: u64, now: u64): (r: Effect)
    ensures KeepsAttempts(s, r.0) && SameActivations(s, r.0)
    ensures KeepsAuthority(s, r.0)
    ensures SameDefinitions(s, r.0) && SameServing(s, r.0) && SameEvidence(s, r.0)
    ensures KeepsFences(s, r.0)
  {
    var check := RegisterCheck(s, inc, permitId);
    if check.Fail? then Refuse(s, check) else
    var counter := Bump(s.ids.incarnation);
    var i := AdmitOne(s, inc, Bump(counter), now);
    (s.(ids := s.ids.(incarnation := counter),
        currentByEngine := PutIf(s.currentByEngine, i.isCurrent, i.engineId, i.incarnationId),
        incarnations := s.incarnations[i.incarnationId := i],
        permits := s.permits[permitId := s.permits[permitId].(consumed := true)],
        consumed := s.consumed + {permitId}), Done(i.incarnationId))
  }

  function RunOne(i: Incarnation, now: u64): (r: Incarnation)
    ensures Evolves(i, r)
  {
    i.(state := i.state.(lifecycle := Running, health := Healthy), lastActivityNs := now)
  }

  function MarkRunning(s: State, id: u64, now: u64): (r: Effect)
    ensures KeepsAttempts(s, r.0) && SameActivations(s, r.0) && AddsNoCurrent(s, r.0)
    ensures KeepsAuthority(s, r.0)
    ensures SameDefinitions(s, r.0) && SameServing(s, r.0) && SameEvidence(s, r.0)
    ensures KeepsFences(s, r.0)
  {
    if id !in s.incarnations then (s, Threw(UnknownIncarnation))
    else (s.(incarnations := s.incarnations[id := RunOne(s.incarnations[id], now)]), Done(id))
  }

  function RevalidateOne(i: Incarnation): (r: Incarnation)
    ensures Evolves(i, r) && r.readinessGeneration == Tried(i.readinessGeneration)
  {
    i.(isCurrent := true, readinessGeneration := Tried(i.readinessGeneration),
       state := i.state.(recovery := Nominal, preparation := Prepared, lifecycle := Running))
  }

  function Revalidate(s: State, id: u64): (r: Effect)
    ensures KeepsAttempts(s, r.0) && SameActivations(s, r.0)
    ensures KeepsAuthority(s, r.0)
    ensures SameDefinitions(s, r.0) && SameServing(s, r.0) && SameEvidence(s, r.0)
    ensures KeepsFences(s, r.0)
  {
    if id !in s.incarnations then (s, Threw(UnknownIncarnation)) else
    var i := s.incarnations[id];
    (s.(currentByEngine := s.currentByEngine[i.engineId := i.incarnationId],
        incarnations := s.incarnations[id := RevalidateOne(i)]), Tell(i.readinessGeneration, id))
  }

  function FenceOne(i: Incarnation): (r: Incarnation)
    ensures Fades(i, r) && Down(r)
  {
    i.(isCurrent := false,
       state := i.state.(health := FencedHealth, lifecycle := Lost, activation := FencedActivation,
                         registration := FencedRegistration))
  }

  function FenceAll(incs: map<u64, Incarnation>, worker: u64, boot: u64): (r: map<u64, Incarnation>)
    ensures r.Keys == incs.Keys
    ensures forall k :: k in incs ==> Fades(incs[k], r[k])
  {
    map k | k in incs :: if OfBoot(incs[k], worker, boot) then FenceOne(incs[k]) else incs[k]
  }

  function FenceWorker(s: State, worker: u64, boot: u64): (r: Effect)
    ensures KeepsAttempts(s, r.0) && SameActivations(s, r.0) && AddsNoCurrent(s, r.0)
    ensures KeepsAuthority(s, r.0)
    ensures SameDefinitions(s, r.0) && SameServing(s, r.0) && SameEvidence(s, r.0)
    ensures Continues(s, r.0) && r.0.options == s.options
    ensures forall w, b :: BootFenced(s, w, b) ==> BootFenced(r.0, w, b)
    ensures BootFenced(r.0, worker, boot)
  {
    var boots := if worker in s.fenced then s.fenced[worker] else {};
    (s.(fenced := s.fenced[worker := boots + {boot}],
        incarnations := FenceAll(s.incarnations, worker, boot)), Done(0))
  }

  function SupersedeOne(i: Incarnation): (r: Incarnation)
    ensures Fades(i, r)
  {
    if i.state.lifecycle.Running? then i.(state := i.state.(recovery := Revalidating), isCurrent := false) else i
  }

  function SupersedeAll(incs: map<u64, Incarnation>, now: bool): (r: map<u64, Incarnation>)
    ensures r.Keys == incs.Keys
    ensures forall k :: k in incs ==> Fades(incs[k], r[k])
  {
    if now then map k | k in incs :: SupersedeOne(incs[k]) else incs
  }

  function AdvanceEpoch(s: State): (r: Effect)
    ensures KeepsAttempts(s, r.0) && SameActivations(s, r.0) && AddsNoCurrent(s, r.0)
    ensures KeepsAuthority(s, r.0)
    ensures SameDefinitions(s, r.0) && SameServing(s, r.0) && SameEvidence(s, r.0)
    ensures KeepsFences(s, r.0) && Continues(s, r.0)
  {
    if Exhausted(s.epoch) then (s, Threw(GenerationExhausted)) else
    var stops := Exhausted(s.authority);
    (s.(epoch := s.epoch + 1, authority := Tried(s.authority), slots := ClearIf(s.slots, !stops),
        incarnations := SupersedeAll(s.incarnations, !stops)),
     Tell(s.authority, s.epoch + 1))
  }

  /* ---- evidence ---- */

  function PublishCheck(s: State, ev: Evidence): Outcome<ErrorCode>
  {
    var key := ev.origin.incarnationId;
    :- Need(key in s.incarnations, UnknownIncarnation);
    var i := s.incarnations[key];
    :- Need(!Fenced(i), FencedWorker);
    :- Need(!BootFenced(s, i.workerId, i.workerBoot), FencedWorker);
    :- Need(ev.coordinatorEpoch == s.epoch, StaleEpoch);
    Need(|EvidenceSlots(s.evidence)| < s.options.maxComponentEvidence, BoundsExceeded)
  }

  /** Binding a backend or device context confirms the start. */
  function ConfirmOne(i: Incarnation, category: ComponentCategory, now: u64): (r: Incarnation)
    ensures Evolves(i, r) && (Up(r) ==> Up(i))
    ensures !Fenced(i) ==> !Down(i)
  {
    var confirms := (category.Backend? || category.DeviceContext?) && i.state.lifecycle.Starting?;
    i.(lastActivityNs := now,
       state := if confirms then i.state.(lifecycle := Running, health := Healthy) else i.state)
  }

  function Publish(s: State, ev: Evidence, now: u64): (r: Effect)
    ensures KeepsAttempts(s, r.0) && SameActivations(s, r.0) && AddsNoCurrent(s, r.0)
    ensures KeepsAuthority(s, r.0)
    ensures SameDefinitions(s, r.0) && SameServing(s, r.0) && KeepsFences(s, r.0) && Continues(s, r.0)
  {
    var check := PublishCheck(s, ev);
    if check.Fail? then Refuse(s, check) else
    var key := ev.origin.incarnationId;
    var counter := Bump(s.ids.evidence);
    var e := ev.(evidenceId := Bump(counter), evidenceGeneration := 1,
                 measured := ev.measured.(observedAtNs := now));
    (s.(ids := s.ids.(evidence := counter), evidence := s.evidence[key := EvidenceOf(s, key) + [e]],
        incarnations := s.incarnations[key := ConfirmOne(s.incarnations[key], e.category, now)]), Done(e.evidenceId))
  }

  function DistrustOne(e: Evidence, reason: bytes): Evidence
  {
    e.(state := RevalidationRequired, invalidationReason := reason)
  }

  function Distrusted(es: seq<Evidence>, reason: bytes): seq<Evidence>
  {
    seq(|es|, j requires 0 <= j < |es| => DistrustOne(es[j], reason))
  }

  function DistrustAll(evidence: map<u64, seq<Evidence>>, id: u64, reason: bytes): map<u64, seq<Evidence>>
  {
    if id in evidence then evidence[id := Distrusted(evidence[id], reason)] else evidence
  }

  function InvalidateComponents(s: State, id: u64, reason: bytes): (r: Effect)
    ensures KeepsAttempts(s, r.0) && SameActivations(s, r.0) && AddsNoCurrent(s, r.0)
    ensures KeepsAuthority(s, r.0)
    ensures SameDefinitions(s, r.0) && SameServing(s, r.0) && KeepsFences(s, r.0) && Continues(s, r.0)
  {
    if id !in s.incarnations then (s, Threw(UnknownIncarnation))
    else (s.(evidence := DistrustAll(s.evidence, id, reason),
             incarnations := s.incarnations[id := InvalidateOne(s.incarnations[id])]),
          Tell(s.incarnations[id].readinessGeneration, id))
  }

  /* ---- preparation ---- */

  function PrepareOne(i: Incarnation, p: PreparationState): (r: Incarnation)
    ensures Declines(i, r)
  {
    i.(state := i.state.(preparation := p))
  }

  function CreatePlanCheck(s: State, id: u64, profileId: u64): Outcome<ErrorCode>
  {
    if id !in s.incarnations then Fail(UnknownIncarnation) else
    :- Need(s.incarnations[id].isCurrent, StaleIncarnation);
    :- Need(profileId in s.profiles, UnknownProfile);
    :- Need(|s.plans| < s.options.maxPendingPreparation, BoundsExceeded);
    Need(s.incarnations[id].engineId in s.engines, OutOfRange)
  }

  /** One step for each missing requirement, in their order, as far as the bound allows; a warmup if that
      leaves none. */
  function PlanSteps(missing: seq<ProfileRequirement>, bound: nat): (steps: seq<PlanStep>)
    ensures steps != [] && |steps| <= (if bound == 0 then 1 else bound)
    ensures WarmUp in steps <==> missing == [] || bound == 0
  {
    var n := if |missing| <= bound then |missing| else bound;
    if n == 0 then [WarmUp] else seq(n, j requires 0 <= j < n => Prepare(missing[j]))
  }

  function MissingFor(s: State, p: ReadinessProfile, i: Incarnation, now: u64): seq<ProfileRequirement>
    requires i.engineId in s.engines
  {
    Having(s.engines[i.engineId], p.requirements, EvidenceOf(s, i.incarnationId), now, {Missing})
  }

  function NewPlan(s: State, i: Incarnation, id: u64, profileId: u64, target: DesiredResidency, now: u64): Plan
    requires i.engineId in s.engines && profileId in s.profiles
  {
    var p := s.profiles[profileId];
    Plan(id, i.incarnationGeneration, profileId, p.profileGeneration, target, s.epoch, s.authority, i.sourceBoot,
      PlanSteps(MissingFor(s, p, i, now), s.options.maxPlanSteps))
  }

  function CreatePlan(s: State, id: u64, profileId: u64, target: DesiredResidency, now: u64): (r: Effect)
    ensures KeepsAttempts(s, r.0) && SameActivations(s, r.0) && AddsNoCurrent(s, r.0)
    ensures KeepsAuthority(s, r.0)
    ensures SameDefinitions(s, r.0) && SameServing(s, r.0) && SameEvidence(s, r.0)
    ensures KeepsFences(s, r.0) && Continues(s, r.0)
  {
    var check := CreatePlanCheck(s, id, profileId);
    if check.Fail? then Refuse(s, check) else
    var counter := Bump(s.ids.plan);
    var i := s.incarnations[id];
    (s.(ids := s.ids.(plan := counter),
        plans := s.plans[Bump(counter) := NewPlan(s, i, id, profileId, target, now)],
        incarnations := s.incarnations[id := PrepareOne(i, Planned)]), Done(Bump(counter)))
  }

  function BeginPreparationCheck(s: State, planId: u64, id: u64): Outcome<ErrorCode>
  {
    if planId !in s.plans then Fail(UnknownAttempt) else
    :- Need(s.plans[planId].epoch == s.epoch, PlanStale);
    :- Need(id in s.incarnations && s.incarnations[id].isCurrent, StaleIncarnation);
    :- Need(id !in s.activeAttempt, InvalidState);
    Need(|s.activeAttempt| < s.options.maxPendingPreparation, BoundsExceeded)
  }

  /** The caller passes a copy of the plan; only its stored epoch is looked up. */
  function BeginPreparation(s: State, planId: u64, id: u64, profileId: u64): (r: Effect)
    ensures SameActivations(s, r.0) && AddsNoCurrent(s, r.0)
    ensures KeepsAuthority(s, r.0)
    ensures SameDefinitions(s, r.0) && SameServing(s, r.0) && SameEvidence(s, r.0)
    ensures KeepsFences(s, r.0) && Continues(s, r.0)
  {
    var check := BeginPreparationCheck(s, planId, id);
    if check.Fail? then Refuse(s, check) else
    var counter := Bump(s.ids.attempt);
    var key := Bump(counter);
    (s.(ids := s.ids.(attempt := counter),
        attempts := s.attempts[key := Attempt(planId, id, profileId, s.epoch, s.authority, Planned, false, false)],
        activeAttempt := s.activeAttempt[id := key],
        incarnations := s.incarnations[id := PrepareOne(s.incarnations[id], Preparing)]), Done(key))
  }

  function CompletePreparationCheck(s: State, attemptId: u64): Outcome<ErrorCode>
  {
    if attemptId !in s.attempts then Fail(UnknownAttempt) else
    var a := s.attempts[attemptId];
    :- Need(!a.cancelled, AttemptCancelled);
    :- Need(a.epoch == s.epoch, StaleEpoch);
    :- Need(a.authority == s.authority, StaleAuthority);
    :- Need(a.incarnationId in s.incarnations && s.incarnations[a.incarnationId].isCurrent, StaleIncarnation);
    :- Need(a.profileId in s.profiles, UnknownProfile);
    Need(s.incarnations[a.incarnationId].engineId in s.engines, UnknownEngine)
  }

  /** A preparation that is published, or that failed; when the generation is exhausted the rest of a
      publication is left undone. */
  function PublishOne(i: Incarnation, admits: bool): (r: Incarnation)
    ensures Declines(i, r)
    ensures r.readinessGeneration == if admits then Tried(i.readinessGeneration) else i.readinessGeneration
  {
    if admits then
      i.(readinessGeneration := Tried(i.readinessGeneration),
         state := i.state.(preparation := Prepared,
                           observed := if Exhausted(i.readinessGeneration) then i.state.observed else Warm))
    else PrepareOne(i, PreparationFailed)
  }

  function CompleteOne(a: Attempt, admits: bool): Attempt
  {
    if admits then a.(state := Prepared, publishedReady := true) else a.(state := PreparationFailed)
  }

  function FinishIf(active: map<u64, u64>, condition: bool, id: u64): map<u64, u64>
  {
    if condition then active - {id} else active
  }

  function CompletePreparation(s: State, attemptId: u64, now: u64): (r: Effect)
    ensures KeepsAttempts(s, r.0) && SameActivations(s, r.0) && AddsNoCurrent(s, r.0)
    ensures KeepsAuthority(s, r.0)
    ensures SameDefinitions(s, r.0) && SameServing(s, r.0) && SameEvidence(s, r.0)
    ensures KeepsFences(s, r.0) && Continues(s, r.0)
  {
    var check := CompletePreparationCheck(s, attemptId);
    if check.Fail? then Refuse(s, check) else
    var a := s.attempts[attemptId];
    var i := s.incarnations[a.incarnationId];
    var admits := OutlookOf(s, s.profiles[a.profileId], i, now).Admits();
    (s.(attempts := s.attempts[attemptId := CompleteOne(a, admits)],
        incarnations := s.incarnations[a.incarnationId := PublishOne(i, admits)],
        activeAttempt := FinishIf(s.activeAttempt, !admits || !Exhausted(i.readinessGeneration), a.incarnationId)),
     if admits then Tell(i.readinessGeneration, attemptId) else Done(attemptId))
  }

  function CancelPreparationCheck(s: State, attemptId: u64): Outcome<ErrorCode>
  {
    if attemptId !in s.attempts then Fail(UnknownAttempt) else
    Need(!s.attempts[attemptId].publishedReady, InvalidState)
  }

  function CancelPreparation(s: State, attemptId: u64): (r: Effect)
    ensures KeepsAttempts(s, r.0) && SameActivations(s, r.0) && AddsNoCurrent(s, r.0)
    ensures KeepsAuthority(s, r.0)
    ensures SameDefinitions(s, r.0) && SameServing(s, r.0) && SameEvidence(s, r.0)
    ensures KeepsFences(s, r.0) && Continues(s, r.0)
  {
    var check := CancelPreparationCheck(s, attemptId);
    if check.Fail? then Refuse(s, check) else
    var a := s.attempts[attemptId];
    (s.(attempts := s.attempts[attemptId := a.(cancelled := true, state := PreparationFailed)],
        activeAttempt := s.activeAttempt - {a.incarnationId}), Done(attemptId))
  }

  function RollbackPreparation(s: State, attemptId: u64): (r: Effect)
    ensures KeepsAttempts(s, r.0) && SameActivations(s, r.0) && AddsNoCurrent(s, r.0)
    ensures KeepsAuthority(s, r.0)
    ensures SameDefinitions(s, r.0) && SameServing(s, r.0) && SameEvidence(s, r.0)
    ensures KeepsFences(s, r.0) && Continues(s, r.0)
  {
    if attemptId !in s.attempts then (s, Threw(UnknownAttempt)) else
    var a := s.attempts[attemptId];
    (s.(attempts := s.attempts[attemptId := a.(state := PreparationFailed)],
        activeAttempt := s.activeAttempt - {a.incarnationId}), Done(attemptId))
  }

  /* ---- activation ---- */

  /** A slot holder that no longer blocks a takeover. */
  predicate HolderDead(s: State, id: u64)
  {
    id !in s.incarnations ||
    var h := s.incarnations[id].state;
    h.health.FencedHealth? || h.health.LostHealth? || Gone(h.lifecycle) || h.recovery.Revalidating?
    || h.recovery.AwaitingAuthority?
  }

  predicate SlotTaken(s: State, slot: u64, id: u64)
  {
    slot in s.slots && s.slots[slot] != 0 && s.slots[slot] != id && !HolderDead(s, s.slots[slot])
  }

  function ActivateCheck(s: State, q: Request, now: u64): Outcome<ErrorCode>
  {
    if q.authority != s.authority then Fail(StaleAuthority) else
    :- Need(q.incarnationId in s.incarnations, UnknownIncarnation);
    var i := s.incarnations[q.incarnationId];
    :- Need(!Fenced(i), FencedWorker);
    :- Need(i.state.lifecycle.Running?, InvalidState);
    :- Need(i.readinessGeneration == q.readinessGeneration, StaleGeneration);
    :- Need(q.profileId == 0 || q.profileId in s.profiles, UnknownProfile);
    :- Need(q.profileId == 0 || i.engineId in s.engines, OutOfRange);
    :- Need(q.profileId == 0 || OutlookOf(s, s.profiles[q.profileId], i, now).Admits(), InvalidState);
    Need(q.slotId == 0 || !SlotTaken(s, q.slotId, i.incarnationId), ActivationConflict)
  }

  /** The record of an activation; its current flag is never cleared again. */
  function Recorded(i: Incarnation, q: Request): (r: Activation)
    ensures r.current && r.slotId == q.slotId && r.incarnationId == i.incarnationId
  {
    Activation(i.engineId, i.engineGeneration, i.incarnationId, i.incarnationGeneration, q.profileId,
      i.readinessGeneration, q.standbyGeneration, q.slotId, i.state.activation, true)
  }

  function ActivateOne(i: Incarnation): (r: Incarnation)
    ensures Evolves(i, r) && Up(r) == Up(i)
  {
    i.(isCurrent := true, state := i.state.(activation := Active))
  }

  function Activate(s: State, q: Request, now: u64): (r: Effect)
    ensures KeepsAttempts(s, r.0)
    ensures KeepsAuthority(s, r.0)
    ensures SameDefinitions(s, r.0) && SameServing(s, r.0) && SameEvidence(s, r.0)
    ensures KeepsFences(s, r.0) && Continues(s, r.0)
  {
    var check := ActivateCheck(s, q, now);
    if check.Fail? then Refuse(s, check) else
    var i := s.incarnations[q.incarnationId];
    var counter := Bump(s.ids.activation);
    (s.(slots := PutIf(s.slots, q.slotId != 0, q.slotId, i.incarnationId),
        ids := s.ids.(activation := counter),
        activations := s.activations[Bump(counter) := Recorded(i, q)],
        currentByEngine := s.currentByEngine[i.engineId := i.incarnationId],
        incarnations := s.incarnations[q.incarnationId := ActivateOne(i)]), Done(Bump(counter)))
  }

  /* ---- serving uses ---- */

  function AcquireCheck(s: State, id: u64, w: Wanted, now: u64): Outcome<ErrorCode>
  {
    if id !in s.incarnations then Fail(UnknownIncarnation) else
    var i := s.incarnations[id];
    :- Need(i.isCurrent, StaleIncarnation);
    :- Need(i.state.lifecycle.Running?, InvalidState);
    :- Need(!AdmissionClosed(s, id), UseAfterDrain);
    :- Need(w.readinessGeneration == i.readinessGeneration, StaleGeneration);
    :- Need(w.profileId in s.profiles, UnknownProfile);
    :- Need(i.engineId in s.engines, UnknownEngine);
    :- Need(OutlookOf(s, s.profiles[w.profileId], i, now).Admits(), InvalidState);
    Need(s.activeUseCount < s.options.maxActiveUses, BoundsExceeded)
  }

  function TouchOne(i: Incarnation, now: u64): (r: Incarnation)
    ensures Declines(i, r)
  {
    i.(lastActivityNs := now)
  }

  /** The record of an admitted use, with the text "admitted". */
  function AdmitUse(i: Incarnation, w: Wanted, now: u64): (u: Use)
    ensures u.incarnationId == i.incarnationId && !u.released
  {
    Use(i.engineId, i.engineGeneration, i.incarnationId, i.incarnationGeneration, w, false, Completed, now, 0,
      [97, 100, 109, 105, 116, 116, 101, 100])
  }

  function CloseUse(u: Use, c: Closing): (r: Use)
    ensures r.incarnationId == u.incarnationId && r.released
  {
    u.(released := true, outcome := c.outcome, releasedAtNs := c.now, detail := c.detail)
  }

  function Acquire(s: State, id: u64, w: Wanted, now: u64): (r: Effect)
    ensures KeepsAttempts(s, r.0) && SameActivations(s, r.0) && AddsNoCurrent(s, r.0)
    ensures KeepsAuthority(s, r.0)
    ensures SameDefinitions(s, r.0) && SameEvidence(s, r.0) && SameDrains(s, r.0)
    ensures KeepsFences(s, r.0) && Continues(s, r.0)
  {
    var check := AcquireCheck(s, id, w, now);
    if check.Fail? then Refuse(s, check) else
    var i := s.incarnations[id];
    var counter := Bump(s.ids.use);
    (s.(ids := s.ids.(use := counter), activeUseCount := Bump(s.activeUseCount),
        activeUses := s.activeUses[Bump(counter) := AdmitUse(i, w, now)],
        incarnations := s.incarnations[id := TouchOne(i, now)]), Done(Bump(counter)))
  }

  function ReleaseCheck(s: State, use: u64, id: u64): Outcome<ErrorCode>
  {
    if use !in s.activeUses then Fail(UnknownUse) else
    :- Need(!s.activeUses[use].released, DuplicateRelease);
    Need(s.activeUses[use].incarnationId == id, StaleIncarnation)
  }

  /** How a release moves the drain of its incarnation. */
  function AfterRelease(d: Drain, remaining: u32): Drain
  {
    if d.fenced && remaining == 0 then d.(phase := if d.ack then Drained else BackendCleanupPending) else d
  }

  function ReleaseDrain(drains: map<u64, Drain>, counted: bool, id: u64, remaining: u32): map<u64, Drain>
  {
    if counted && id in drains then drains[id := AfterRelease(drains[id], remaining)] else drains
  }

  function Lower(count: u64): u64
  {
    if count == 0 then 0 else count - 1
  }

  /** The record is marked before the count is checked; at zero the rest is skipped. */
  function Release(s: State, use: u64, id: u64, c: Closing): (r: Effect)
    ensures KeepsAttempts(s, r.0) && SameActivations(s, r.0) && AddsNoCurrent(s, r.0)
    ensures KeepsAuthority(s, r.0)
    ensures SameDefinitions(s, r.0) && KeepsClosed(s, r.0) && SameEvidence(s, r.0)
    ensures KeepsFences(s, r.0) && Continues(s, r.0)
  {
    var check := ReleaseCheck(s, use, id);
    if check.Fail? then Refuse(s, check) else
    var uses := s.activeUses[use := CloseUse(s.activeUses[use], c)];
    var counted := s.activeUseCount != 0;
    (s.(activeUses := uses, activeUseCount := Lower(s.activeUseCount),
        drains := ReleaseDrain(s.drains, counted, id, Remaining(uses, id))),
     if counted then Done(use) else Threw(InvalidState))
  }

  /* ---- drain ---- */

  function DrainOne(i: Incarnation): (r: Incarnation)
    ensures Declines(i, r)
  {
    i.(state := i.state.(lifecycle := Draining, activation := DrainingActivation))
  }

  function RequestDrainCheck(s: State, id: u64): Outcome<ErrorCode>
  {
    if id !in s.incarnations then Fail(UnknownIncarnation) else
    Need(!Exhausted(DrainOf(s, id).generation), GenerationExhausted)
  }

  function RequestDrain(s: State, id: u64): (r: Effect)
    ensures KeepsAttempts(s, r.0) && SameActivations(s, r.0) && AddsNoCurrent(s, r.0)
    ensures KeepsAuthority(s, r.0)
    ensures SameDefinitions(s, r.0) && KeepsClosed(s, r.0) && SameUses(s, r.0) && SameEvidence(s, r.0)
    ensures KeepsFences(s, r.0) && Continues(s, r.0)
  {
    var check := RequestDrainCheck(s, id);
    if check.Fail? then Refuse(s, check) else
    var phase := if Remaining(s.activeUses, id) == 0 then BackendCleanupPending else ActiveUseRemaining;
    (s.(drains := s.drains[id := Drain(phase, DrainOf(s, id).generation + 1, true, DrainOf(s, id).ack)],
        incarnations := s.incarnations[id := DrainOne(s.incarnations[id])]), Done(id))
  }

  function AfterAcknowledgement(d: Drain, remaining: u32): Drain
  {
    d.(ack := true, phase := if d.fenced && remaining == 0 then Drained else d.phase)
  }

  function AcknowledgeCleanup(s: State, id: u64): (r: Effect)
    ensures KeepsAttempts(s, r.0) && SameActivations(s, r.0) && AddsNoCurrent(s, r.0)
    ensures KeepsAuthority(s, r.0)
    ensures SameDefinitions(s, r.0) && KeepsClosed(s, r.0) && SameUses(s, r.0) && SameEvidence(s, r.0)
    ensures KeepsFences(s, r.0) && Continues(s, r.0)
  {
    if id !in s.drains then (s, Threw(InvalidState)) else
    (s.(drains := s.drains[id := AfterAcknowledgement(s.drains[id], Remaining(s.activeUses, id))]), Done(id))
  }

  /* ---- replacement ---- */

  predicate CandidateRunning(s: State, id: u64)
  {
    id in s.incarnations && s.incarnations[id].state.lifecycle.Running?
  }

  function BeginReplacementCheck(s: State, plan: ReplacementPlan): Outcome<ErrorCode>
  {
    if plan.epoch != s.epoch then Fail(StaleEpoch) else
    :- Need(plan.authority == s.authority, StaleAuthority);
    :- Need(CandidateRunning(s, plan.candidateIncarnation), StaleIncarnation);
    :- Need(plan.oldIncarnation in s.incarnations, UnknownIncarnation);
    Need(s.incarnations[plan.candidateIncarnation].incarnationId
         != s.incarnations[plan.oldIncarnation].incarnationId, InvalidArgument)
  }

  function BeginReplacement(s: State, plan: ReplacementPlan): (r: Effect)
    ensures KeepsAttempts(s, r.0) && SameActivations(s, r.0) && AddsNoCurrent(s, r.0)
    ensures KeepsAuthority(s, r.0)
    ensures SameServing(s, r.0) && SameEvidence(s, r.0) && KeepsFences(s, r.0) && Continues(s, r.0)
  {
    var check := BeginReplacementCheck(s, plan);
    if check.Fail? then Refuse(s, check) else
    var counter := Bump(s.ids.replacement);
    var id := Bump(counter);
    (s.(ids := s.ids.(replacement := counter),
        replacements := s.replacements[id := plan.(replacementId := id, replacementGeneration := 1,
          phase := PreparingReplacement, overlapAvailable := plan.overlapBytes == 0)]), Done(id))
  }

  function DisplaceOne(i: Incarnation): (r: Incarnation)
    ensures Declines(i, r)
    ensures i.state.lifecycle.Running? ==> !Down(r)
  {
    i.(isCurrent := false, state := i.state.(activation := FencedActivation))
  }

  function PromoteOne(i: Incarnation): (r: Incarnation)
    ensures Evolves(i, r)
  {
    i.(isCurrent := true, state := i.state.(activation := Standby, lifecycle := Running))
  }

  function CutoverCheck(s: State, rid: u64): Outcome<ErrorCode>
  {
    if rid !in s.replacements then Fail(NotFound) else
    :- Need(s.replacements[rid].phase.PreparingReplacement?, InvalidState);
    Need(CandidateRunning(s, s.replacements[rid].candidateIncarnation), StaleIncarnation)
  }

  /** The drains after a cutover away from o: its admission is fenced. */
  function FenceOld(s: State, o: u64): map<u64, Drain>
  {
    if o !in s.incarnations then s.drains
    else
      var id := s.incarnations[o].incarnationId;
      s.drains[id := DrainOf(s, id).(fenced := true)]
  }

  function DisplaceOld(s: State, o: u64): map<u64, Incarnation>
  {
    if o !in s.incarnations then s.incarnations else s.incarnations[o := DisplaceOne(s.incarnations[o])]
  }

  function CommitCutover(s: State, rid: u64): (r: Effect)
    ensures KeepsAttempts(s, r.0) && SameActivations(s, r.0)
    ensures KeepsAuthority(s, r.0)
    ensures KeepsClosed(s, r.0) && SameUses(s, r.0) && SameEvidence(s, r.0) && KeepsFences(s, r.0) && Continues(s, r.0)
  {
    var check := CutoverCheck(s, rid);
    if check.Fail? then Refuse(s, check) else
    var p := s.replacements[rid];
    var incs := DisplaceOld(s, p.oldIncarnation);
    var c := incs[p.candidateIncarnation];
    (s.(drains := FenceOld(s, p.oldIncarnation),
        incarnations := incs[p.candidateIncarnation := PromoteOne(c)],
        currentByEngine := s.currentByEngine[c.engineId := c.incarnationId],
        replacements := s.replacements[rid := p.(phase := Cutover)]), Done(rid))
  }

  function RetireOne(i: Incarnation): (r: Incarnation)
    ensures Fades(i, r)
  {
    i.(isCurrent := false, state := i.state.(lifecycle := Retired, health := LostHealth))
  }

  function RetireIn(incs: map<u64, Incarnation>, o: u64): (r: map<u64, Incarnation>)
    ensures r.Keys == incs.Keys
    ensures forall k :: k in incs ==> Fades(incs[k], r[k])
  {
    if o !in incs then incs else incs[o := RetireOne(incs[o])]
  }

  function RetireOldIncarnation(s: State, rid: u64): (r: Effect)
    ensures KeepsAttempts(s, r.0) && SameActivations(s, r.0) && AddsNoCurrent(s, r.0)
    ensures KeepsAuthority(s, r.0)
    ensures SameServing(s, r.0) && SameEvidence(s, r.0) && KeepsFences(s, r.0) && Continues(s, r.0)
  {
    if rid !in s.replacements then (s, Threw(NotFound)) else
    var p := s.replacements[rid];
    (s.(replacements := s.replacements[rid := p.(phase := Complete)],
        incarnations := RetireIn(s.incarnations, p.oldIncarnation)), Done(rid))
  }

  /* ---- cost history ---- */

  function RecordCosts(s: State, costs: seq<CostComponent>): (r: Effect)
    ensures KeepsAttempts(s, r.0) && SameActivations(s, r.0) && AddsNoCurrent(s, r.0)
    ensures KeepsAuthority(s, r.0)
    ensures SameDefinitions(s, r.0) && SameServing(s, r.0) && SameEvidence(s, r.0)
    ensures KeepsFences(s, r.0) && Continues(s, r.0)
  {
    if |s.costHistory| + |costs| > s.options.maxCostSamples then (s, Threw(BoundsExceeded))
    else (s.(costHistory := s.costHistory + costs), Done(0))
  }

  /* ---- load ---- */

  const RESUMED: u64 := 1_000_000

  function RestoreIncarnation(i: Incarnation): Incarnation
  {
    i.(isCurrent := false, state := i.state.(recovery := Revalidating, activation := Inactive,
                                             preparation := NeedsRevalidation))
  }

  function RestoreEvidence(e: Evidence): Evidence
  {
    e.(state := RevalidationRequired)
  }

  /** A table rebuilt by assigning one record after the other: the last one with a key stays. */
  function Table<T>(xs: seq<T>, key: T -> u64): map<u64, T>
  {
    if xs == [] then map[] else Table(xs[..|xs| - 1], key)[key(xs[|xs| - 1]) := xs[|xs| - 1]]
  }

  /** The evidence lists rebuilt by push_back in file order. */
  function EvidenceTable(xs: seq<Evidence>): map<u64, seq<Evidence>>
  {
    if xs == [] then map[]
    else
      var m, e := EvidenceTable(xs[..|xs| - 1]), xs[|xs| - 1];
      var k := e.origin.incarnationId;
      m[k := (if k in m then m[k] else []) + [RestoreEvidence(e)]]
  }

  function EngineKey(e: EngineDefinition): u64 { e.engineId }
  function ProfileKey(p: ReadinessProfile): u64 { p.profileId }
  function IncarnationKey(i: Incarnation): u64 { i.incarnationId }
  function ReplacementKey(p: ReplacementPlan): u64 { p.replacementId }

  function RestoreAll(xs: seq<Incarnation>): seq<Incarnation>
  {
    seq(|xs|, j requires 0 <= j < |xs| => RestoreIncarnation(xs[j]))
  }

  /** load keeps two of the counters and restarts the others. */
  function Resumed(ids: Counters): Counters
  {
    Counters(ids.engine, ids.profile, RESUMED, RESUMED, RESUMED, RESUMED, RESUMED, RESUMED, RESUMED, RESUMED)
  }

  /** load, once the blob has been decoded: uses, drains, permits, fences and plans stay as they are. */
  function Load(s: State, p: PersistentState): (t: State)
    ensures t.activeUses == s.activeUses && t.activeUseCount == s.activeUseCount
    ensures SameDrains(s, t) && KeepsFences(s, t)
  {
    s.(epoch := OrElse(p.coordinatorEpoch, 1),
       authority := OrElse(p.authorityGeneration, 1),
       registrationCounter := p.registrationCounter,
       engines := Table(p.engines, EngineKey), profiles := Table(p.profiles, ProfileKey),
       incarnations := Table(RestoreAll(p.incarnations), IncarnationKey),
       evidence := EvidenceTable(p.evidence), replacements := Table(p.replacements, ReplacementKey),
       costHistory := p.costHistory, currentByEngine := map[],
       ids := Resumed(s.ids))
  }
}
