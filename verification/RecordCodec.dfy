/** The wire form of every durable record (w_* and r_* of persistence.cpp) as pairs of functions,
    in the field order of the source, with the limits each side enforces. */
module RecordCodec {
  import opened Prelude
  import opened Records
  import opened Wire

  predicate CompatibilityFits(v: CompatibilityKey)
  {
    |v.ns| <= MAX_STR && |v.value| <= MAX_STR
  }

  function PutCompatibility(v: CompatibilityKey, rest: bytes): bytes
  {
    PutStr(v.ns, PutStr(v.value, rest))
  }

  function GetCompatibility(r: bytes): (p: Parsed<CompatibilityKey>)
    ensures p.Some? ==> CompatibilityFits(p.value.0)
  {
    var (ns, r) :- GetStr(r);
    var (value, r) :- GetStr(r);
    Some((CompatibilityKey(ns, value), r))
  }

  predicate ProcessFits(v: ProcessId)
  {
    |v.tag| <= MAX_STR
  }

  function PutProcess(v: ProcessId, rest: bytes): bytes
  {
    PutU32(v.pid, PutU64(v.startSeconds, PutStr(v.tag, rest)))
  }

  function GetProcess(r: bytes): (p: Parsed<ProcessId>)
    ensures p.Some? ==> ProcessFits(p.value.0)
  {
    var (pid, r) :- GetU32(r);
    var (startSeconds, r) :- GetU64(r);
    var (tag, r) :- GetStr(r);
    Some((ProcessId(pid, startSeconds, tag), r))
  }

  function PutStateSet(v: StateSet, rest: bytes): bytes
  {
    PutU32(v.desired.Code(), PutU32(v.observed.Code(), PutU32(v.lifecycle.Code(), PutU32(v.preparation.Code(),
    PutU32(v.activation.Code(), PutU32(v.health.Code(), PutU32(v.recovery.Code(), PutU32(v.registration.Code(),
    PutU32(v.drain.Code(), rest)))))))))
  }

  function GetStateSet(r: bytes): Parsed<StateSet>
  {
    var (desired, r) :- GetCode(3, r);
    var (observed, r) :- GetCode(3, r);
    var (lifecycle, r) :- GetCode(8, r);
    var (preparation, r) :- GetCode(6, r);
    var (activation, r) :- GetCode(5, r);
    var (health, r) :- GetCode(5, r);
    var (recovery, r) :- GetCode(5, r);
    var (registration, r) :- GetCode(4, r);
    var (drain, r) :- GetCode(6, r);
    Some((StateSet(DesiredResidency.ALL[desired], DesiredResidency.ALL[observed],
    ProcessLifecycle.ALL[lifecycle], PreparationState.ALL[preparation], ActivationState.ALL[activation],
    HealthState.ALL[health], RecoveryState.ALL[recovery], RegistrationState.ALL[registration],
    DrainPhase.ALL[drain]), r))
  }

  predicate RequirementFits(v: ProfileRequirement)
  {
    |v.subject| <= MAX_STR && CompatibilityFits(v.compatibility) && |v.description| <= MAX_STR
  }

  function PutRequirement(v: ProfileRequirement, rest: bytes): bytes
  {
    PutU32(v.category.Code(), PutU32(v.kind.Code(), PutU32(v.minState.Code(), PutStr(v.subject,
    PutCompatibility(v.compatibility, PutU32(v.family.Code(), PutStr(v.description, rest)))))))
  }

  function GetRequirement(r: bytes): (p: Parsed<ProfileRequirement>)
    ensures p.Some? ==> RequirementFits(p.value.0)
  {
    var (category, r) :- GetCode(13, r);
    var (kind, r) :- GetCode(3, r);
    var (minState, r) :- GetCode(9, r);
    var (subject, r) :- GetStr(r);
    var (compatibility, r) :- GetCompatibility(r);
    var (family, r) :- GetCode(10, r);
    var (description, r) :- GetStr(r);
    Some((ProfileRequirement(ComponentCategory.ALL[category], RequirementKind.ALL[kind],
    ComponentState.ALL[minState], subject, compatibility, GenerationFamily.ALL[family], description), r))
  }

  function PutOrigin(v: Origin, rest: bytes): bytes
  {
    PutU64(v.engineId, PutU64(v.engineGeneration, PutU64(v.incarnationId, PutU64(v.incarnationGeneration,
    PutU64(v.workerId, PutU64(v.workerBoot, PutU64(v.sourceId, PutU64(v.sourceBoot, rest))))))))
  }

  function GetOrigin(r: bytes): Parsed<Origin>
  {
    var (engineId, r) :- GetU64(r);
    var (engineGeneration, r) :- GetU64(r);
    var (incarnationId, r) :- GetU64(r);
    var (incarnationGeneration, r) :- GetU64(r);
    var (workerId, r) :- GetU64(r);
    var (workerBoot, r) :- GetU64(r);
    var (sourceId, r) :- GetU64(r);
    var (sourceBoot, r) :- GetU64(r);
    Some((Origin(engineId, engineGeneration, incarnationId, incarnationGeneration, workerId, workerBoot,
    sourceId, sourceBoot), r))
  }

  function PutDevice(v: DeviceBinding, rest: bytes): bytes
  {
    PutU64(v.backendId, PutU64(v.backendGeneration, PutU64(v.deviceId, PutU64(v.deviceGeneration,
    PutU64(v.contextGeneration, PutU32(v.ordinal, rest))))))
  }

  function GetDevice(r: bytes): Parsed<DeviceBinding>
  {
    var (backendId, r) :- GetU64(r);
    var (backendGeneration, r) :- GetU64(r);
    var (deviceId, r) :- GetU64(r);
    var (deviceGeneration, r) :- GetU64(r);
    var (contextGeneration, r) :- GetU64(r);
    var (ordinal, r) :- GetU32(r);
    Some((DeviceBinding(backendId, backendGeneration, deviceId, deviceGeneration, contextGeneration,
    ordinal), r))
  }

  function PutGenerations(v: Generations, rest: bytes): bytes
  {
    PutU64(v.model, PutU64(v.adapter, PutU64(v.kvCapacity, PutU64(v.kvState, PutU64(v.kernel, PutU64(v.graph,
    PutU64(v.artifact, PutU64(v.allocation, PutU64(v.dependency, PutU64(v.resourceClaim, PutU64(v.warmup,
    rest)))))))))))
  }

  function GetGenerations(r: bytes): Parsed<Generations>
  {
    var (model, r) :- GetU64(r);
    var (adapter, r) :- GetU64(r);
    var (kvCapacity, r) :- GetU64(r);
    var (kvState, r) :- GetU64(r);
    var (kernel, r) :- GetU64(r);
    var (graph, r) :- GetU64(r);
    var (artifact, r) :- GetU64(r);
    var (allocation, r) :- GetU64(r);
    var (dependency, r) :- GetU64(r);
    var (resourceClaim, r) :- GetU64(r);
    var (warmup, r) :- GetU64(r);
    Some((Generations(model, adapter, kvCapacity, kvState, kernel, graph, artifact, allocation, dependency,
    resourceClaim, warmup), r))
  }

  function PutMeasurement(v: Measurement, rest: bytes): bytes
  {
    PutU64(v.sizeBytes, PutU64(v.elapsedNs, PutU64(v.observedAtNs, PutU64(v.maxAgeNs, rest))))
  }

  function GetMeasurement(r: bytes): Parsed<Measurement>
  {
    var (sizeBytes, r) :- GetU64(r);
    var (elapsedNs, r) :- GetU64(r);
    var (observedAtNs, r) :- GetU64(r);
    var (maxAgeNs, r) :- GetU64(r);
    Some((Measurement(sizeBytes, elapsedNs, observedAtNs, maxAgeNs), r))
  }

  predicate EvidenceFits(v: Evidence)
  {
    |v.subject| <= MAX_STR && |v.nspace| <= MAX_STR && CompatibilityFits(v.compatibility)
    && |v.detail| <= MAX_STR && |v.invalidationReason| <= MAX_STR
  }

  function PutEvidence(v: Evidence, rest: bytes): bytes
  {
    PutU64(v.evidenceId, PutU64(v.evidenceGeneration, PutU32(v.category.Code(), PutU32(v.state.Code(),
    PutU32(v.provenance.Code(), PutStr(v.subject, PutStr(v.nspace, PutOrigin(v.origin, PutDevice(v.device,
    PutCompatibility(v.compatibility, PutGenerations(v.generations, PutU64(v.profileId,
    PutU64(v.profileGeneration, PutMeasurement(v.measured, PutStr(v.detail, PutStr(v.invalidationReason,
    PutU64(v.coordinatorEpoch, rest)))))))))))))))))
  }

  function GetEvidence(r: bytes): (p: Parsed<Evidence>)
    ensures p.Some? ==> EvidenceFits(p.value.0)
  {
    var (evidenceId, r) :- GetU64(r);
    var (evidenceGeneration, r) :- GetU64(r);
    var (category, r) :- GetCode(13, r);
    var (state, r) :- GetCode(9, r);
    var (provenance, r) :- GetCode(6, r);
    var (subject, r) :- GetStr(r);
    var (nspace, r) :- GetStr(r);
    var (origin, r) :- GetOrigin(r);
    var (device, r) :- GetDevice(r);
    var (compatibility, r) :- GetCompatibility(r);
    var (generations, r) :- GetGenerations(r);
    var (profileId, r) :- GetU64(r);
    var (profileGeneration, r) :- GetU64(r);
    var (measured, r) :- GetMeasurement(r);
    var (detail, r) :- GetStr(r);
    var (invalidationReason, r) :- GetStr(r);
    var (coordinatorEpoch, r) :- GetU64(r);
    Some((Evidence(evidenceId, evidenceGeneration, ComponentCategory.ALL[category], ComponentState.ALL[state],
    Provenance.ALL[provenance], subject, nspace, origin, device, compatibility, generations, profileId,
    profileGeneration, measured, detail, invalidationReason, coordinatorEpoch), r))
  }

  function PutBackendNeed(v: BackendNeed, rest: bytes): bytes
  {
    PutU64(v.id, PutU64(v.generation, PutBool(v.specific, rest)))
  }

  function GetBackendNeed(r: bytes): Parsed<BackendNeed>
  {
    var (id, r) :- GetU64(r);
    var (generation, r) :- GetU64(r);
    var (specific, r) :- GetBool(r);
    Some((BackendNeed(id, generation, specific), r))
  }

  predicate ModelNeedFits(v: ModelNeed)
  {
    |v.name| <= MAX_STR
  }

  function PutModelNeed(v: ModelNeed, rest: bytes): bytes
  {
    PutU64(v.id, PutU64(v.generation, PutStr(v.name, PutU64(v.size, rest))))
  }

  function GetModelNeed(r: bytes): (p: Parsed<ModelNeed>)
    ensures p.Some? ==> ModelNeedFits(p.value.0)
  {
    var (id, r) :- GetU64(r);
    var (generation, r) :- GetU64(r);
    var (name, r) :- GetStr(r);
    var (size, r) :- GetU64(r);
    Some((ModelNeed(id, generation, name, size), r))
  }

  function PutAdapterNeed(v: AdapterNeed, rest: bytes): bytes
  {
    PutU64(v.generation, PutBool(v.required, rest))
  }

  function GetAdapterNeed(r: bytes): Parsed<AdapterNeed>
  {
    var (generation, r) :- GetU64(r);
    var (required, r) :- GetBool(r);
    Some((AdapterNeed(generation, required), r))
  }

  function PutDeviceNeed(v: DeviceNeed, rest: bytes): bytes
  {
    PutU64(v.id, PutU64(v.generation, PutU32(v.ordinal, PutBool(v.specific, rest))))
  }

  function GetDeviceNeed(r: bytes): Parsed<DeviceNeed>
  {
    var (id, r) :- GetU64(r);
    var (generation, r) :- GetU64(r);
    var (ordinal, r) :- GetU32(r);
    var (specific, r) :- GetBool(r);
    Some((DeviceNeed(id, generation, ordinal, specific), r))
  }

  predicate KernelNeedFits(v: KernelNeed)
  {
    |v.key| <= MAX_STR
  }

  function PutKernelNeed(v: KernelNeed, rest: bytes): bytes
  {
    PutStr(v.key, PutU64(v.generation, PutBool(v.required, rest)))
  }

  function GetKernelNeed(r: bytes): (p: Parsed<KernelNeed>)
    ensures p.Some? ==> KernelNeedFits(p.value.0)
  {
    var (key, r) :- GetStr(r);
    var (generation, r) :- GetU64(r);
    var (required, r) :- GetBool(r);
    Some((KernelNeed(key, generation, required), r))
  }

  function PutGraphNeed(v: GraphNeed, rest: bytes): bytes
  {
    PutBool(v.required, PutBool(v.optionalFallback, PutU64(v.generation, rest)))
  }

  function GetGraphNeed(r: bytes): Parsed<GraphNeed>
  {
    var (required, r) :- GetBool(r);
    var (optionalFallback, r) :- GetBool(r);
    var (generation, r) :- GetU64(r);
    Some((GraphNeed(required, optionalFallback, generation), r))
  }

  predicate TokenizerNeedFits(v: TokenizerNeed)
  {
    |v.key| <= MAX_STR
  }

  function PutTokenizerNeed(v: TokenizerNeed, rest: bytes): bytes
  {
    PutStr(v.key, PutU64(v.generation, PutBool(v.required, rest)))
  }

  function GetTokenizerNeed(r: bytes): (p: Parsed<TokenizerNeed>)
    ensures p.Some? ==> TokenizerNeedFits(p.value.0)
  {
    var (key, r) :- GetStr(r);
    var (generation, r) :- GetU64(r);
    var (required, r) :- GetBool(r);
    Some((TokenizerNeed(key, generation, required), r))
  }

  predicate ExecutionNeedFits(v: ExecutionNeed)
  {
    KernelNeedFits(v.kernel) && TokenizerNeedFits(v.tokenizer)
  }

  function PutExecutionNeed(v: ExecutionNeed, rest: bytes): bytes
  {
    PutU64(v.workspaceBytes, PutU64(v.kvCapacityEntries, PutKernelNeed(v.kernel, PutGraphNeed(v.graph,
    PutTokenizerNeed(v.tokenizer, rest)))))
  }

  function GetExecutionNeed(r: bytes): (p: Parsed<ExecutionNeed>)
    ensures p.Some? ==> ExecutionNeedFits(p.value.0)
  {
    var (workspaceBytes, r) :- GetU64(r);
    var (kvCapacityEntries, r) :- GetU64(r);
    var (kernel, r) :- GetKernelNeed(r);
    var (graph, r) :- GetGraphNeed(r);
    var (tokenizer, r) :- GetTokenizerNeed(r);
    Some((ExecutionNeed(workspaceBytes, kvCapacityEntries, kernel, graph, tokenizer), r))
  }

  predicate PolicyFits(v: ServingPolicy)
  {
    CompatibilityFits(v.compatibility) && |v.preparationPolicy| <= MAX_STR
  }

  function PutPolicy(v: ServingPolicy, rest: bytes): bytes
  {
    PutCompatibility(v.compatibility, PutBool(v.compatibilityRequired, PutStr(v.preparationPolicy,
    PutBool(v.warmupRequired, PutBool(v.standbyEligible, PutU32(v.standbyTarget, PutU32(v.maxConcurrency,
    rest)))))))
  }

  function GetPolicy(r: bytes): (p: Parsed<ServingPolicy>)
    ensures p.Some? ==> PolicyFits(p.value.0)
  {
    var (compatibility, r) :- GetCompatibility(r);
    var (compatibilityRequired, r) :- GetBool(r);
    var (preparationPolicy, r) :- GetStr(r);
    var (warmupRequired, r) :- GetBool(r);
    var (standbyEligible, r) :- GetBool(r);
    var (standbyTarget, r) :- GetU32(r);
    var (maxConcurrency, r) :- GetU32(r);
    Some((ServingPolicy(compatibility, compatibilityRequired, preparationPolicy, warmupRequired,
    standbyEligible, standbyTarget, maxConcurrency), r))
  }

  predicate ClaimsWritable(v: ResourceClaims)
  {
    |v.ref| <= MAX_STR && (forall x :: x in v.dependencyRefs ==> StrFits(x))
  }

  predicate ClaimsFits(v: ResourceClaims)
  {
    ClaimsWritable(v) && |v.dependencyRefs| <= MAX_COUNT
  }

  function PutClaims(v: ResourceClaims, rest: bytes): bytes
  {
    PutU64(v.generation, PutStr(v.ref, PutList(PutStr, v.dependencyRefs, PutU64(v.dependencyGeneration,
    rest))))
  }

  function GetClaims(r: bytes): (p: Parsed<ResourceClaims>)
    ensures p.Some? ==> ClaimsFits(p.value.0)
  {
    StrListLaws();
    var (generation, r) :- GetU64(r);
    var (ref, r) :- GetStr(r);
    var (dependencyRefs, r) :- GetList(GetStr, r);
    var (dependencyGeneration, r) :- GetU64(r);
    Some((ResourceClaims(generation, ref, dependencyRefs, dependencyGeneration), r))
  }

  predicate EngineWritable(v: EngineDefinition)
  {
    |v.name| <= MAX_STR && ModelNeedFits(v.model) && ExecutionNeedFits(v.execution) && PolicyFits(v.policy)
    && ClaimsWritable(v.claims)
  }

  predicate EngineFits(v: EngineDefinition)
  {
    EngineWritable(v) && ClaimsFits(v.claims) && |v.profileIds| <= MAX_COUNT
  }

  function PutEngine(v: EngineDefinition, rest: bytes): bytes
  {
    PutU64(v.engineId, PutU64(v.engineGeneration, PutU64(v.configGeneration, PutStr(v.name,
    PutU32(v.role.Code(), PutBackendNeed(v.backend, PutModelNeed(v.model, PutAdapterNeed(v.adapter,
    PutDeviceNeed(v.device, PutExecutionNeed(v.execution, PutPolicy(v.policy, PutClaims(v.claims,
    PutU32(v.provenance.Code(), PutList(PutU64, v.profileIds, rest))))))))))))))
  }

  function GetEngine(r: bytes): (p: Parsed<EngineDefinition>)
    ensures p.Some? ==> EngineFits(p.value.0)
  {
    U64ListLaws();
    var (engineId, r) :- GetU64(r);
    var (engineGeneration, r) :- GetU64(r);
    var (configGeneration, r) :- GetU64(r);
    var (name, r) :- GetStr(r);
    var (role, r) :- GetCode(7, r);
    var (backend, r) :- GetBackendNeed(r);
    var (model, r) :- GetModelNeed(r);
    var (adapter, r) :- GetAdapterNeed(r);
    var (device, r) :- GetDeviceNeed(r);
    var (execution, r) :- GetExecutionNeed(r);
    var (policy, r) :- GetPolicy(r);
    var (claims, r) :- GetClaims(r);
    var (provenance, r) :- GetCode(6, r);
    var (profileIds, r) :- GetList(GetU64, r);
    Some((EngineDefinition(engineId, engineGeneration, configGeneration, name, ServingRole.ALL[role], backend,
    model, adapter, device, execution, policy, claims, Provenance.ALL[provenance], profileIds), r))
  }

  predicate ShapeFits(v: Shape)
  {
    |v.dtype| <= MAX_STR && |v.layout| <= MAX_STR
  }

  function PutShape(v: Shape, rest: bytes): bytes
  {
    PutU32(v.maxBatch, PutU32(v.maxSeqLen, PutStr(v.dtype, PutStr(v.layout, rest))))
  }

  function GetShape(r: bytes): (p: Parsed<Shape>)
    ensures p.Some? ==> ShapeFits(p.value.0)
  {
    var (maxBatch, r) :- GetU32(r);
    var (maxSeqLen, r) :- GetU32(r);
    var (dtype, r) :- GetStr(r);
    var (layout, r) :- GetStr(r);
    Some((Shape(maxBatch, maxSeqLen, dtype, layout), r))
  }

  function PutNeeds(v: ProfileNeeds, rest: bytes): bytes
  {
    PutU64(v.workspaceBytes, PutU64(v.modelBytes, PutU64(v.kvCapacityEntries, PutBool(v.graphRequired,
    PutBool(v.graphOptionalFallback, PutBool(v.warmupRequired, PutU32(v.deviceOrdinal,
    PutBool(v.deviceSpecific, rest))))))))
  }

  function GetNeeds(r: bytes): Parsed<ProfileNeeds>
  {
    var (workspaceBytes, r) :- GetU64(r);
    var (modelBytes, r) :- GetU64(r);
    var (kvCapacityEntries, r) :- GetU64(r);
    var (graphRequired, r) :- GetBool(r);
    var (graphOptionalFallback, r) :- GetBool(r);
    var (warmupRequired, r) :- GetBool(r);
    var (deviceOrdinal, r) :- GetU32(r);
    var (deviceSpecific, r) :- GetBool(r);
    Some((ProfileNeeds(workspaceBytes, modelBytes, kvCapacityEntries, graphRequired, graphOptionalFallback,
    warmupRequired, deviceOrdinal, deviceSpecific), r))
  }

  predicate ProfileWritable(v: ReadinessProfile)
  {
    |v.name| <= MAX_STR && ShapeFits(v.shape) && (forall x :: x in v.requirements ==> RequirementFits(x))
    && CompatibilityFits(v.compatibility)
  }

  predicate ProfileFits(v: ReadinessProfile)
  {
    ProfileWritable(v) && |v.requirements| <= MAX_COUNT
  }

  function PutProfile(v: ReadinessProfile, rest: bytes): bytes
  {
    PutU64(v.profileId, PutU64(v.profileGeneration, PutU64(v.engineId, PutU64(v.engineGeneration,
    PutStr(v.name, PutU32(v.role.Code(), PutShape(v.shape, PutNeeds(v.needs, PutBool(v.profileRequired,
    PutU64(v.policyGeneration, PutU64(v.dependencyGeneration, PutList(PutRequirement, v.requirements,
    PutCompatibility(v.compatibility, rest)))))))))))))
  }

  function GetProfile(r: bytes): (p: Parsed<ReadinessProfile>)
    ensures p.Some? ==> ProfileFits(p.value.0)
  {
    RequirementListLaws();
    var (profileId, r) :- GetU64(r);
    var (profileGeneration, r) :- GetU64(r);
    var (engineId, r) :- GetU64(r);
    var (engineGeneration, r) :- GetU64(r);
    var (name, r) :- GetStr(r);
    var (role, r) :- GetCode(7, r);
    var (shape, r) :- GetShape(r);
    var (needs, r) :- GetNeeds(r);
    var (profileRequired, r) :- GetBool(r);
    var (policyGeneration, r) :- GetU64(r);
    var (dependencyGeneration, r) :- GetU64(r);
    var (requirements, r) :- GetList(GetRequirement, r);
    var (compatibility, r) :- GetCompatibility(r);
    Some((ReadinessProfile(profileId, profileGeneration, engineId, engineGeneration, name,
    ServingRole.ALL[role], shape, needs, profileRequired, policyGeneration, dependencyGeneration, requirements,
    compatibility), r))
  }

  predicate IncarnationFits(v: Incarnation)
  {
    ProcessFits(v.process) && |v.nfc| <= MAX_STR
  }

  function PutIncarnation(v: Incarnation, rest: bytes): bytes
  {
    PutU64(v.incarnationId, PutU64(v.incarnationGeneration, PutU64(v.engineId, PutU64(v.engineGeneration,
    PutU64(v.configGeneration, PutU64(v.workerId, PutU64(v.workerBoot, PutU64(v.sourceId, PutU64(v.sourceBoot,
    PutU64(v.coordinatorEpoch, PutU64(v.authorityGeneration, PutU64(v.registrationPermit, PutDevice(v.device,
    PutProcess(v.process, PutU32(v.registration.Code(), PutStateSet(v.state, PutU64(v.readinessGeneration,
    PutBool(v.isCurrent, PutU64(v.lastActivityNs, PutStr(v.nfc, rest))))))))))))))))))))
  }

  function GetIncarnation(r: bytes): (p: Parsed<Incarnation>)
    ensures p.Some? ==> IncarnationFits(p.value.0)
  {
    var (incarnationId, r) :- GetU64(r);
    var (incarnationGeneration, r) :- GetU64(r);
    var (engineId, r) :- GetU64(r);
    var (engineGeneration, r) :- GetU64(r);
    var (configGeneration, r) :- GetU64(r);
    var (workerId, r) :- GetU64(r);
    var (workerBoot, r) :- GetU64(r);
    var (sourceId, r) :- GetU64(r);
    var (sourceBoot, r) :- GetU64(r);
    var (coordinatorEpoch, r) :- GetU64(r);
    var (authorityGeneration, r) :- GetU64(r);
    var (registrationPermit, r) :- GetU64(r);
    var (device, r) :- GetDevice(r);
    var (process, r) :- GetProcess(r);
    var (registration, r) :- GetCode(4, r);
    var (state, r) :- GetStateSet(r);
    var (readinessGeneration, r) :- GetU64(r);
    var (isCurrent, r) :- GetBool(r);
    var (lastActivityNs, r) :- GetU64(r);
    var (nfc, r) :- GetStr(r);
    Some((Incarnation(incarnationId, incarnationGeneration, engineId, engineGeneration, configGeneration,
    workerId, workerBoot, sourceId, sourceBoot, coordinatorEpoch, authorityGeneration, registrationPermit,
    device, process, RegistrationState.ALL[registration], state, readinessGeneration, isCurrent,
    lastActivityNs, nfc), r))
  }

  predicate ReplacementFits(v: ReplacementPlan)
  {
    |v.detail| <= MAX_STR
  }

  function PutReplacement(v: ReplacementPlan, rest: bytes): bytes
  {
    PutU64(v.replacementId, PutU64(v.replacementGeneration, PutU64(v.engineId, PutU64(v.engineGeneration,
    PutU64(v.oldIncarnation, PutU64(v.oldIncarnationGeneration, PutU64(v.candidateIncarnation,
    PutU64(v.candidateIncarnationGeneration, PutU64(v.epoch, PutU64(v.authority, PutU32(v.phase.Code(),
    PutBool(v.makeBeforeBreak, PutBool(v.rollbackRequired, PutStr(v.detail, PutU64(v.overlapBytes,
    PutBool(v.overlapAvailable, rest))))))))))))))))
  }

  function GetReplacement(r: bytes): (p: Parsed<ReplacementPlan>)
    ensures p.Some? ==> ReplacementFits(p.value.0)
  {
    var (replacementId, r) :- GetU64(r);
    var (replacementGeneration, r) :- GetU64(r);
    var (engineId, r) :- GetU64(r);
    var (engineGeneration, r) :- GetU64(r);
    var (oldIncarnation, r) :- GetU64(r);
    var (oldIncarnationGeneration, r) :- GetU64(r);
    var (candidateIncarnation, r) :- GetU64(r);
    var (candidateIncarnationGeneration, r) :- GetU64(r);
    var (epoch, r) :- GetU64(r);
    var (authority, r) :- GetU64(r);
    var (phase, r) :- GetCode(6, r);
    var (makeBeforeBreak, r) :- GetBool(r);
    var (rollbackRequired, r) :- GetBool(r);
    var (detail, r) :- GetStr(r);
    var (overlapBytes, r) :- GetU64(r);
    var (overlapAvailable, r) :- GetBool(r);
    Some((ReplacementPlan(replacementId, replacementGeneration, engineId, engineGeneration, oldIncarnation,
    oldIncarnationGeneration, candidateIncarnation, candidateIncarnationGeneration, epoch, authority,
    ReplacementPhase.ALL[phase], makeBeforeBreak, rollbackRequired, detail, overlapBytes,
    overlapAvailable), r))
  }

  predicate CostFits(v: CostComponent)
  {
    |v.name| <= MAX_STR && |v.unit| <= MAX_STR
  }

  function PutCost(v: CostComponent, rest: bytes): bytes
  {
    PutStr(v.name, PutU64(v.estimatedNs, PutU64(v.measuredNs, PutU32(v.provenance.Code(), PutU64(v.size,
    PutStr(v.unit, rest))))))
  }

  function GetCost(r: bytes): (p: Parsed<CostComponent>)
    ensures p.Some? ==> CostFits(p.value.0)
  {
    var (name, r) :- GetStr(r);
    var (estimatedNs, r) :- GetU64(r);
    var (measuredNs, r) :- GetU64(r);
    var (provenance, r) :- GetCode(6, r);
    var (size, r) :- GetU64(r);
    var (unit, r) :- GetStr(r);
    Some((CostComponent(name, estimatedNs, measuredNs, Provenance.ALL[provenance], size, unit), r))
  }

  lemma CompatibilityLaws()
    ensures forall v, rest {:trigger PutCompatibility(v, rest)} ::
              CompatibilityFits(v) ==> GetCompatibility(PutCompatibility(v, rest)) == Some((v, rest))
    ensures forall r {:trigger GetCompatibility(r)} ::
              GetCompatibility(r).Some? ==> CompatibilityFits(GetCompatibility(r).value.0)
    ensures forall r, t {:trigger GetCompatibility(r + t)} :: GetCompatibility(r).Some? ==>
              GetCompatibility(r + t) == Some((GetCompatibility(r).value.0, GetCompatibility(r).value.1 + t))
  {
    PrimitiveLaws();
    hide GetU8, GetU32, GetU64, GetBool, GetStr, GetCode, PutU8, PutU32, PutU64, PutBool, PutStr;
  }

  lemma ProcessLaws()
    ensures forall v, rest {:trigger PutProcess(v, rest)} ::
              ProcessFits(v) ==> GetProcess(PutProcess(v, rest)) == Some((v, rest))
    ensures forall r {:trigger GetProcess(r)} :: GetProcess(r).Some? ==> ProcessFits(GetProcess(r).value.0)
    ensures forall r, t {:trigger GetProcess(r + t)} :: GetProcess(r).Some? ==>
              GetProcess(r + t) == Some((GetProcess(r).value.0, GetProcess(r).value.1 + t))
  {
    PrimitiveLaws();
    hide GetU8, GetU32, GetU64, GetBool, GetStr, GetCode, PutU8, PutU32, PutU64, PutBool, PutStr;
  }

  /** An accepted code is read from the one text that writes it. */
  lemma CodeIsCanonical(max: u32, r: bytes)
    requires GetCode(max, r).Some?
    ensures PutU32(GetCode(max, r).value.0, GetCode(max, r).value.1) == r
  {
    Widths();
    FromLeBounded(r[..4]);
    LeRoundTrip(FromLe(r[..4]), 4);
    FromLeInjective(Le(FromLe(r[..4]), 4), r[..4]);
    assert r[..4] + r[4..] == r;
  }

  lemma StateCodes()
    ensures forall c: nat {:trigger DesiredResidency.ALL[c]} :: c <= 3 ==> DesiredResidency.ALL[c].Code() == c
    ensures forall c: nat {:trigger ProcessLifecycle.ALL[c]} :: c <= 8 ==> ProcessLifecycle.ALL[c].Code() == c
    ensures forall c: nat {:trigger PreparationState.ALL[c]} :: c <= 6 ==> PreparationState.ALL[c].Code() == c
    ensures forall c: nat {:trigger ActivationState.ALL[c]} :: c <= 5 ==> ActivationState.ALL[c].Code() == c
    ensures forall c: nat {:trigger HealthState.ALL[c]} :: c <= 5 ==> HealthState.ALL[c].Code() == c
    ensures forall c: nat {:trigger RecoveryState.ALL[c]} :: c <= 5 ==> RecoveryState.ALL[c].Code() == c
    ensures forall c: nat {:trigger RegistrationState.ALL[c]} :: c <= 4 ==> RegistrationState.ALL[c].Code() == c
    ensures forall c: nat {:trigger DrainPhase.ALL[c]} :: c <= 6 ==> DrainPhase.ALL[c].Code() == c
  {
  }

  /** Every state dimension is read within its enumeration: what was accepted is the one text that the
      writer makes of the value. */
  lemma StateSetIsCanonical(r: bytes)
    requires GetStateSet(r).Some?
    ensures PutStateSet(GetStateSet(r).value.0, GetStateSet(r).value.1) == r
  {
    StateCodes();
    hide GetCode, PutU32, DesiredResidency.Code, ProcessLifecycle.Code, PreparationState.Code, ActivationState.Code,
      HealthState.Code, RecoveryState.Code, RegistrationState.Code, DrainPhase.Code;
    CodeIsCanonical(3, r);
    var (desired, r1) := GetCode(3, r).value;
    CodeIsCanonical(3, r1);
    var (observed, r2) := GetCode(3, r1).value;
    CodeIsCanonical(8, r2);
    var (lifecycle, r3) := GetCode(8, r2).value;
    CodeIsCanonical(6, r3);
    var (preparation, r4) := GetCode(6, r3).value;
    CodeIsCanonical(5, r4);
    var (activation, r5) := GetCode(5, r4).value;
    CodeIsCanonical(5, r5);
    var (health, r6) := GetCode(5, r5).value;
    CodeIsCanonical(5, r6);
    var (recovery, r7) := GetCode(5, r6).value;
    CodeIsCanonical(4, r7);
    var (registration, r8) := GetCode(4, r7).value;
    CodeIsCanonical(6, r8);
  }

  lemma StateSetLaws()
    ensures forall v, rest {:trigger PutStateSet(v, rest)} ::
              GetStateSet(PutStateSet(v, rest)) == Some((v, rest))
    ensures forall r, t {:trigger GetStateSet(r + t)} :: GetStateSet(r).Some? ==>
              GetStateSet(r + t) == Some((GetStateSet(r).value.0, GetStateSet(r).value.1 + t))
  {
    PrimitiveLaws();
    hide GetU8, GetU32, GetU64, GetBool, GetStr, GetCode, PutU8, PutU32, PutU64, PutBool, PutStr;
  }

  lemma RequirementLaws()
    ensures forall v, rest {:trigger PutRequirement(v, rest)} ::
              RequirementFits(v) ==> GetRequirement(PutRequirement(v, rest)) == Some((v, rest))
    ensures forall r {:trigger GetRequirement(r)} ::
              GetRequirement(r).Some? ==> RequirementFits(GetRequirement(r).value.0)
    ensures forall r, t {:trigger GetRequirement(r + t)} :: GetRequirement(r).Some? ==>
              GetRequirement(r + t) == Some((GetRequirement(r).value.0, GetRequirement(r).value.1 + t))
  {
    PrimitiveLaws();
    CompatibilityLaws();
    hide GetU8, GetU32, GetU64, GetBool, GetStr, GetCode, PutU8, PutU32, PutU64, PutBool, PutStr,
    GetCompatibility, PutCompatibility;
  }

  lemma RequirementListLaws()
    ensures ListLaws(PutRequirement, GetRequirement, RequirementFits)
  {
    RequirementLaws();
    hide GetRequirement, PutRequirement;
    LawfulLists(PutRequirement, GetRequirement, RequirementFits);
  }

  lemma OriginLaws()
    ensures forall v, rest {:trigger PutOrigin(v, rest)} ::
              GetOrigin(PutOrigin(v, rest)) == Some((v, rest))
    ensures forall r, t {:trigger GetOrigin(r + t)} :: GetOrigin(r).Some? ==>
              GetOrigin(r + t) == Some((GetOrigin(r).value.0, GetOrigin(r).value.1 + t))
  {
    PrimitiveLaws();
    hide GetU8, GetU32, GetU64, GetBool, GetStr, GetCode, PutU8, PutU32, PutU64, PutBool, PutStr;
  }

  lemma DeviceLaws()
    ensures forall v, rest {:trigger PutDevice(v, rest)} ::
              GetDevice(PutDevice(v, rest)) == Some((v, rest))
    ensures forall r, t {:trigger GetDevice(r + t)} :: GetDevice(r).Some? ==>
              GetDevice(r + t) == Some((GetDevice(r).value.0, GetDevice(r).value.1 + t))
  {
    PrimitiveLaws();
    hide GetU8, GetU32, GetU64, GetBool, GetStr, GetCode, PutU8, PutU32, PutU64, PutBool, PutStr;
  }

  lemma GenerationsLaws()
    ensures forall v, rest {:trigger PutGenerations(v, rest)} ::
              GetGenerations(PutGenerations(v, rest)) == Some((v, rest))
    ensures forall r, t {:trigger GetGenerations(r + t)} :: GetGenerations(r).Some? ==>
              GetGenerations(r + t) == Some((GetGenerations(r).value.0, GetGenerations(r).value.1 + t))
  {
    PrimitiveLaws();
    hide GetU8, GetU32, GetU64, GetBool, GetStr, GetCode, PutU8, PutU32, PutU64, PutBool, PutStr;
  }

  lemma MeasurementLaws()
    ensures forall v, rest {:trigger PutMeasurement(v, rest)} ::
              GetMeasurement(PutMeasurement(v, rest)) == Some((v, rest))
    ensures forall r, t {:trigger GetMeasurement(r + t)} :: GetMeasurement(r).Some? ==>
              GetMeasurement(r + t) == Some((GetMeasurement(r).value.0, GetMeasurement(r).value.1 + t))
  {
    PrimitiveLaws();
    hide GetU8, GetU32, GetU64, GetBool, GetStr, GetCode, PutU8, PutU32, PutU64, PutBool, PutStr;
  }

  lemma EvidenceLaws()
    ensures forall v, rest {:trigger PutEvidence(v, rest)} ::
              EvidenceFits(v) ==> GetEvidence(PutEvidence(v, rest)) == Some((v, rest))
    ensures forall r {:trigger GetEvidence(r)} :: GetEvidence(r).Some? ==> EvidenceFits(GetEvidence(r).value.0)
    ensures forall r, t {:trigger GetEvidence(r + t)} :: GetEvidence(r).Some? ==>
              GetEvidence(r + t) == Some((GetEvidence(r).value.0, GetEvidence(r).value.1 + t))
  {
    PrimitiveLaws();
    OriginLaws();
    DeviceLaws();
    CompatibilityLaws();
    GenerationsLaws();
    MeasurementLaws();
    hide GetU8, GetU32, GetU64, GetBool, GetStr, GetCode, PutU8, PutU32, PutU64, PutBool, PutStr, GetOrigin,
    PutOrigin, GetDevice, PutDevice, GetCompatibility, PutCompatibility, GetGenerations, PutGenerations,
    GetMeasurement, PutMeasurement;
  }

  lemma EvidenceListLaws()
    ensures ListLaws(PutEvidence, GetEvidence, EvidenceFits)
  {
    EvidenceLaws();
    hide GetEvidence, PutEvidence;
    LawfulLists(PutEvidence, GetEvidence, EvidenceFits);
  }

  lemma BackendNeedLaws()
    ensures forall v, rest {:trigger PutBackendNeed(v, rest)} ::
              GetBackendNeed(PutBackendNeed(v, rest)) == Some((v, rest))
    ensures forall r, t {:trigger GetBackendNeed(r + t)} :: GetBackendNeed(r).Some? ==>
              GetBackendNeed(r + t) == Some((GetBackendNeed(r).value.0, GetBackendNeed(r).value.1 + t))
  {
    PrimitiveLaws();
    hide GetU8, GetU32, GetU64, GetBool, GetStr, GetCode, PutU8, PutU32, PutU64, PutBool, PutStr;
  }

  lemma ModelNeedLaws()
    ensures forall v, rest {:trigger PutModelNeed(v, rest)} ::
              ModelNeedFits(v) ==> GetModelNeed(PutModelNeed(v, rest)) == Some((v, rest))
    ensures forall r, t {:trigger GetModelNeed(r + t)} :: GetModelNeed(r).Some? ==>
              GetModelNeed(r + t) == Some((GetModelNeed(r).value.0, GetModelNeed(r).value.1 + t))
  {
    PrimitiveLaws();
    hide GetU8, GetU32, GetU64, GetBool, GetStr, GetCode, PutU8, PutU32, PutU64, PutBool, PutStr;
  }

  lemma AdapterNeedLaws()
    ensures forall v, rest {:trigger PutAdapterNeed(v, rest)} ::
              GetAdapterNeed(PutAdapterNeed(v, rest)) == Some((v, rest))
    ensures forall r, t {:trigger GetAdapterNeed(r + t)} :: GetAdapterNeed(r).Some? ==>
              GetAdapterNeed(r + t) == Some((GetAdapterNeed(r).value.0, GetAdapterNeed(r).value.1 + t))
  {
    PrimitiveLaws();
    hide GetU8, GetU32, GetU64, GetBool, GetStr, GetCode, PutU8, PutU32, PutU64, PutBool, PutStr;
  }

  lemma DeviceNeedLaws()
    ensures forall v, rest {:trigger PutDeviceNeed(v, rest)} ::
              GetDeviceNeed(PutDeviceNeed(v, rest)) == Some((v, rest))
    ensures forall r, t {:trigger GetDeviceNeed(r + t)} :: GetDeviceNeed(r).Some? ==>
              GetDeviceNeed(r + t) == Some((GetDeviceNeed(r).value.0, GetDeviceNeed(r).value.1 + t))
  {
    PrimitiveLaws();
    hide GetU8, GetU32, GetU64, GetBool, GetStr, GetCode, PutU8, PutU32, PutU64, PutBool, PutStr;
  }

  lemma KernelNeedLaws()
    ensures forall v, rest {:trigger PutKernelNeed(v, rest)} ::
              KernelNeedFits(v) ==> GetKernelNeed(PutKernelNeed(v, rest)) == Some((v, rest))
    ensures forall r, t {:trigger GetKernelNeed(r + t)} :: GetKernelNeed(r).Some? ==>
              GetKernelNeed(r + t) == Some((GetKernelNeed(r).value.0, GetKernelNeed(r).value.1 + t))
  {
    PrimitiveLaws();
    hide GetU8, GetU32, GetU64, GetBool, GetStr, GetCode, PutU8, PutU32, PutU64, PutBool, PutStr;
  }

  lemma GraphNeedLaws()
    ensures forall v, rest {:trigger PutGraphNeed(v, rest)} ::
              GetGraphNeed(PutGraphNeed(v, rest)) == Some((v, rest))
    ensures forall r, t {:trigger GetGraphNeed(r + t)} :: GetGraphNeed(r).Some? ==>
              GetGraphNeed(r + t) == Some((GetGraphNeed(r).value.0, GetGraphNeed(r).value.1 + t))
  {
    PrimitiveLaws();
    hide GetU8, GetU32, GetU64, GetBool, GetStr, GetCode, PutU8, PutU32, PutU64, PutBool, PutStr;
  }

  lemma TokenizerNeedLaws()
    ensures forall v, rest {:trigger PutTokenizerNeed(v, rest)} ::
              TokenizerNeedFits(v) ==> GetTokenizerNeed(PutTokenizerNeed(v, rest)) == Some((v, rest))
    ensures forall r, t {:trigger GetTokenizerNeed(r + t)} :: GetTokenizerNeed(r).Some? ==>
              GetTokenizerNeed(r + t) == Some((GetTokenizerNeed(r).value.0, GetTokenizerNeed(r).value.1 + t))
  {
    PrimitiveLaws();
    hide GetU8, GetU32, GetU64, GetBool, GetStr, GetCode, PutU8, PutU32, PutU64, PutBool, PutStr;
  }

  lemma ExecutionNeedLaws()
    ensures forall v, rest {:trigger PutExecutionNeed(v, rest)} ::
              ExecutionNeedFits(v) ==> GetExecutionNeed(PutExecutionNeed(v, rest)) == Some((v, rest))
    ensures forall r, t {:trigger GetExecutionNeed(r + t)} :: GetExecutionNeed(r).Some? ==>
              GetExecutionNeed(r + t) == Some((GetExecutionNeed(r).value.0, GetExecutionNeed(r).value.1 + t))
  {
    PrimitiveLaws();
    KernelNeedLaws();
    GraphNeedLaws();
    TokenizerNeedLaws();
    hide GetU8, GetU32, GetU64, GetBool, GetStr, GetCode, PutU8, PutU32, PutU64, PutBool, PutStr,
    GetKernelNeed, PutKernelNeed, GetGraphNeed, PutGraphNeed, GetTokenizerNeed, PutTokenizerNeed;
  }

  lemma PolicyLaws()
    ensures forall v, rest {:trigger PutPolicy(v, rest)} ::
              PolicyFits(v) ==> GetPolicy(PutPolicy(v, rest)) == Some((v, rest))
    ensures forall r, t {:trigger GetPolicy(r + t)} :: GetPolicy(r).Some? ==>
              GetPolicy(r + t) == Some((GetPolicy(r).value.0, GetPolicy(r).value.1 + t))
  {
    PrimitiveLaws();
    CompatibilityLaws();
    hide GetU8, GetU32, GetU64, GetBool, GetStr, GetCode, PutU8, PutU32, PutU64, PutBool, PutStr,
    GetCompatibility, PutCompatibility;
  }

  lemma ClaimsLaws()
    ensures forall v, rest {:trigger PutClaims(v, rest)} ::
              ClaimsFits(v) ==> GetClaims(PutClaims(v, rest)) == Some((v, rest))
    ensures forall r, t {:trigger GetClaims(r + t)} :: GetClaims(r).Some? ==>
              GetClaims(r + t) == Some((GetClaims(r).value.0, GetClaims(r).value.1 + t))
  {
    PrimitiveLaws();
    StrListLaws();
    hide GetU8, GetU32, GetU64, GetBool, GetStr, GetCode, PutU8, PutU32, PutU64, PutBool, PutStr, GetList,
    PutList;
  }

  lemma EngineLaws()
    ensures forall v, rest {:trigger PutEngine(v, rest)} ::
              EngineFits(v) ==> GetEngine(PutEngine(v, rest)) == Some((v, rest))
    ensures forall r {:trigger GetEngine(r)} :: GetEngine(r).Some? ==> EngineFits(GetEngine(r).value.0)
    ensures forall r, t {:trigger GetEngine(r + t)} :: GetEngine(r).Some? ==>
              GetEngine(r + t) == Some((GetEngine(r).value.0, GetEngine(r).value.1 + t))
  {
    PrimitiveLaws();
    BackendNeedLaws();
    ModelNeedLaws();
    AdapterNeedLaws();
    DeviceNeedLaws();
    ExecutionNeedLaws();
    PolicyLaws();
    ClaimsLaws();
    U64ListLaws();
    hide GetU8, GetU32, GetU64, GetBool, GetStr, GetCode, PutU8, PutU32, PutU64, PutBool, PutStr,
    GetBackendNeed, PutBackendNeed, GetModelNeed, PutModelNeed, GetAdapterNeed, PutAdapterNeed, GetDeviceNeed,
    PutDeviceNeed, GetExecutionNeed, PutExecutionNeed, GetPolicy, PutPolicy, GetClaims, PutClaims, GetList,
    PutList;
  }

  lemma EngineListLaws()
    ensures ListLaws(PutEngine, GetEngine, EngineFits)
  {
    EngineLaws();
    hide GetEngine, PutEngine;
    LawfulLists(PutEngine, GetEngine, EngineFits);
  }

  lemma ShapeLaws()
    ensures forall v, rest {:trigger PutShape(v, rest)} ::
              ShapeFits(v) ==> GetShape(PutShape(v, rest)) == Some((v, rest))
    ensures forall r, t {:trigger GetShape(r + t)} :: GetShape(r).Some? ==>
              GetShape(r + t) == Some((GetShape(r).value.0, GetShape(r).value.1 + t))
  {
    PrimitiveLaws();
    hide GetU8, GetU32, GetU64, GetBool, GetStr, GetCode, PutU8, PutU32, PutU64, PutBool, PutStr;
  }

  lemma NeedsLaws()
    ensures forall v, rest {:trigger PutNeeds(v, rest)} ::
              GetNeeds(PutNeeds(v, rest)) == Some((v, rest))
    ensures forall r, t {:trigger GetNeeds(r + t)} :: GetNeeds(r).Some? ==>
              GetNeeds(r + t) == Some((GetNeeds(r).value.0, GetNeeds(r).value.1 + t))
  {
    PrimitiveLaws();
    hide GetU8, GetU32, GetU64, GetBool, GetStr, GetCode, PutU8, PutU32, PutU64, PutBool, PutStr;
  }

  lemma ProfileLaws()
    ensures forall v, rest {:trigger PutProfile(v, rest)} ::
              ProfileFits(v) ==> GetProfile(PutProfile(v, rest)) == Some((v, rest))
    ensures forall r {:trigger GetProfile(r)} :: GetProfile(r).Some? ==> ProfileFits(GetProfile(r).value.0)
    ensures forall r, t {:trigger GetProfile(r + t)} :: GetProfile(r).Some? ==>
              GetProfile(r + t) == Some((GetProfile(r).value.0, GetProfile(r).value.1 + t))
  {
    PrimitiveLaws();
    ShapeLaws();
    NeedsLaws();
    CompatibilityLaws();
    RequirementListLaws();
    hide GetU8, GetU32, GetU64, GetBool, GetStr, GetCode, PutU8, PutU32, PutU64, PutBool, PutStr, GetShape,
    PutShape, GetNeeds, PutNeeds, GetCompatibility, PutCompatibility, GetList, PutList;
  }

  lemma ProfileListLaws()
    ensures ListLaws(PutProfile, GetProfile, ProfileFits)
  {
    ProfileLaws();
    hide GetProfile, PutProfile;
    LawfulLists(PutProfile, GetProfile, ProfileFits);
  }

  lemma IncarnationLaws()
    ensures forall v, rest {:trigger PutIncarnation(v, rest)} ::
              IncarnationFits(v) ==> GetIncarnation(PutIncarnation(v, rest)) == Some((v, rest))
    ensures forall r {:trigger GetIncarnation(r)} ::
              GetIncarnation(r).Some? ==> IncarnationFits(GetIncarnation(r).value.0)
    ensures forall r, t {:trigger GetIncarnation(r + t)} :: GetIncarnation(r).Some? ==>
              GetIncarnation(r + t) == Some((GetIncarnation(r).value.0, GetIncarnation(r).value.1 + t))
  {
    PrimitiveLaws();
    DeviceLaws();
    ProcessLaws();
    StateSetLaws();
    hide GetU8, GetU32, GetU64, GetBool, GetStr, GetCode, PutU8, PutU32, PutU64, PutBool, PutStr, GetDevice,
    PutDevice, GetProcess, PutProcess, GetStateSet, PutStateSet;
  }

  lemma IncarnationListLaws()
    ensures ListLaws(PutIncarnation, GetIncarnation, IncarnationFits)
  {
    IncarnationLaws();
    hide GetIncarnation, PutIncarnation;
    LawfulLists(PutIncarnation, GetIncarnation, IncarnationFits);
  }

  lemma ReplacementLaws()
    ensures forall v, rest {:trigger PutReplacement(v, rest)} ::
              ReplacementFits(v) ==> GetReplacement(PutReplacement(v, rest)) == Some((v, rest))
    ensures forall r {:trigger GetReplacement(r)} ::
              GetReplacement(r).Some? ==> ReplacementFits(GetReplacement(r).value.0)
    ensures forall r, t {:trigger GetReplacement(r + t)} :: GetReplacement(r).Some? ==>
              GetReplacement(r + t) == Some((GetReplacement(r).value.0, GetReplacement(r).value.1 + t))
  {
    PrimitiveLaws();
    hide GetU8, GetU32, GetU64, GetBool, GetStr, GetCode, PutU8, PutU32, PutU64, PutBool, PutStr;
  }

  lemma ReplacementListLaws()
    ensures ListLaws(PutReplacement, GetReplacement, ReplacementFits)
  {
    ReplacementLaws();
    hide GetReplacement, PutReplacement;
    LawfulLists(PutReplacement, GetReplacement, ReplacementFits);
  }

  lemma CostLaws()
    ensures forall v, rest {:trigger PutCost(v, rest)} ::
              CostFits(v) ==> GetCost(PutCost(v, rest)) == Some((v, rest))
    ensures forall r {:trigger GetCost(r)} :: GetCost(r).Some? ==> CostFits(GetCost(r).value.0)
    ensures forall r, t {:trigger GetCost(r + t)} :: GetCost(r).Some? ==>
              GetCost(r + t) == Some((GetCost(r).value.0, GetCost(r).value.1 + t))
  {
    PrimitiveLaws();
    hide GetU8, GetU32, GetU64, GetBool, GetStr, GetCode, PutU8, PutU32, PutU64, PutBool, PutStr;
  }

  lemma CostListLaws()
    ensures ListLaws(PutCost, GetCost, CostFits)
  {
    CostLaws();
    hide GetCost, PutCost;
    LawfulLists(PutCost, GetCost, CostFits);
  }
}
