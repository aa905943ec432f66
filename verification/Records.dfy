/** The durable records of the program. Enumerations are data types whose constructors stand
    in the declaration order of enums.hpp; `Code` is the C++ integer value and `ALL` its inverse.
    Fields that the wire writes next to each other and that belong together are grouped. */
module Records {
  import opened Prelude

  datatype DesiredResidency = AbsentResidency | Cold | Warm | Hot {
    static const ALL: seq<DesiredResidency> := [AbsentResidency, Cold, Warm, Hot]

    function Code(): (c: u32)
      ensures c < |ALL| == 4 && ALL[c] == this
    {
      match this
      case AbsentResidency => 0 case Cold => 1 case Warm => 2 case Hot => 3
    }
  }

  datatype ProcessLifecycle = Registering | Starting | Running | Draining | Stopping | Stopped | Lost | Failed |
    Retired {
    static const ALL: seq<ProcessLifecycle> := [Registering, Starting, Running, Draining, Stopping, Stopped, Lost,
      Failed, Retired]

    function Code(): (c: u32)
      ensures c < |ALL| == 9 && ALL[c] == this
    {
      match this
      case Registering => 0 case Starting => 1 case Running => 2 case Draining => 3 case Stopping => 4
      case Stopped => 5 case Lost => 6 case Failed => 7 case Retired => 8
    }
  }

  datatype PreparationState = Unprepared | Planned | Preparing | Prepared | Invalidated | PreparationFailed |
    NeedsRevalidation {
    static const ALL: seq<PreparationState> := [Unprepared, Planned, Preparing, Prepared, Invalidated,
      PreparationFailed, NeedsRevalidation]

    function Code(): (c: u32)
      ensures c < |ALL| == 7 && ALL[c] == this
    {
      match this
      case Unprepared => 0 case Planned => 1 case Preparing => 2 case Prepared => 3 case Invalidated => 4
      case PreparationFailed => 5 case NeedsRevalidation => 6
    }
  }

  datatype ActivationState = Inactive | Standby | Activating | Active | DrainingActivation | FencedActivation {
    static const ALL: seq<ActivationState> := [Inactive, Standby, Activating, Active, DrainingActivation,
      FencedActivation]

    function Code(): (c: u32)
      ensures c < |ALL| == 6 && ALL[c] == this
    {
      match this
      case Inactive => 0 case Standby => 1 case Activating => 2 case Active => 3 case DrainingActivation => 4
      case FencedActivation => 5
    }
  }

  datatype HealthState = UnknownHealth | Healthy | DegradedHealth | Unhealthy | LostHealth | FencedHealth {
    static const ALL: seq<HealthState> := [UnknownHealth, Healthy, DegradedHealth, Unhealthy, LostHealth,
      FencedHealth]

    function Code(): (c: u32)
      ensures c < |ALL| == 6 && ALL[c] == this
    {
      match this
      case UnknownHealth => 0 case Healthy => 1 case DegradedHealth => 2 case Unhealthy => 3
      case LostHealth => 4 case FencedHealth => 5
    }
  }

  datatype RecoveryState = Nominal | Revalidating | Recovering | Replaced | RecoveryFailed | AwaitingAuthority {
    static const ALL: seq<RecoveryState> := [Nominal, Revalidating, Recovering, Replaced, RecoveryFailed,
      AwaitingAuthority]

    function Code(): (c: u32)
      ensures c < |ALL| == 6 && ALL[c] == this
    {
      match this
      case Nominal => 0 case Revalidating => 1 case Recovering => 2 case Replaced => 3 case RecoveryFailed => 4
      case AwaitingAuthority => 5
    }
  }

  datatype RegistrationState = Unregistered | Pending | Registered | FencedRegistration | Rejected {
    static const ALL: seq<RegistrationState> := [Unregistered, Pending, Registered, FencedRegistration, Rejected]

    function Code(): (c: u32)
      ensures c < |ALL| == 5 && ALL[c] == this
    {
      match this
      case Unregistered => 0 case Pending => 1 case Registered => 2 case FencedRegistration => 3
      case Rejected => 4
    }
  }

  datatype ServingRole = GeneralInference | Prefill | Decode | Embedding | Multimodal | ReferenceCompute | Custom
    | UnknownRole {
    static const ALL: seq<ServingRole> := [GeneralInference, Prefill, Decode, Embedding, Multimodal,
      ReferenceCompute, Custom, UnknownRole]

    function Code(): (c: u32)
      ensures c < |ALL| == 8 && ALL[c] == this
    {
      match this
      case GeneralInference => 0 case Prefill => 1 case Decode => 2 case Embedding => 3 case Multimodal => 4
      case ReferenceCompute => 5 case Custom => 6 case UnknownRole => 7
    }
  }

  datatype ComponentCategory = Backend | DeviceContext | Model | Adapter | KvCapacity | KvState | Kernel | Graph |
    TokenizerAsset | RuntimeAsset | Workspace | ResourceClaim | Dependency | Warmup {
    static const ALL: seq<ComponentCategory> := [Backend, DeviceContext, Model, Adapter, KvCapacity, KvState,
      Kernel, Graph, TokenizerAsset, RuntimeAsset, Workspace, ResourceClaim, Dependency, Warmup]

    function Code(): (c: u32)
      ensures c < |ALL| == 14 && ALL[c] == this
    {
      match this
      case Backend => 0 case DeviceContext => 1 case Model => 2 case Adapter => 3 case KvCapacity => 4
      case KvState => 5 case Kernel => 6 case Graph => 7 case TokenizerAsset => 8 case RuntimeAsset => 9
      case Workspace => 10 case ResourceClaim => 11 case Dependency => 12 case Warmup => 13
    }
  }

  datatype ComponentState = Absent | Discovered | Available | Loading | Bound | Verified | FailedComponent | Stale
    | Unknown | RevalidationRequired {
    static const ALL: seq<ComponentState> := [Absent, Discovered, Available, Loading, Bound, Verified,
      FailedComponent, Stale, Unknown, RevalidationRequired]

    function Code(): (c: u32)
      ensures c < |ALL| == 10 && ALL[c] == this
    {
      match this
      case Absent => 0 case Discovered => 1 case Available => 2 case Loading => 3 case Bound => 4
      case Verified => 5 case FailedComponent => 6 case Stale => 7 case Unknown => 8
      case RevalidationRequired => 9
    }
  }

  datatype RequirementKind = Required | Optional | PermittedFallback | Unsupported {
    static const ALL: seq<RequirementKind> := [Required, Optional, PermittedFallback, Unsupported]

    function Code(): (c: u32)
      ensures c < |ALL| == 4 && ALL[c] == this
    {
      match this
      case Required => 0 case Optional => 1 case PermittedFallback => 2 case Unsupported => 3
    }
  }

  datatype Provenance = Measured | Reported | Derived | Estimated | Synthetic | Reconstructed | UnknownProvenance {
    static const ALL: seq<Provenance> := [Measured, Reported, Derived, Estimated, Synthetic, Reconstructed,
      UnknownProvenance]

    function Code(): (c: u32)
      ensures c < |ALL| == 7 && ALL[c] == this
    {
      match this
      case Measured => 0 case Reported => 1 case Derived => 2 case Estimated => 3 case Synthetic => 4
      case Reconstructed => 5 case UnknownProvenance => 6
    }
  }

  datatype GenerationFamily = AnyFamily | ModelFamily | AdapterFamily | KvCapacityFamily | KvStateFamily |
    KernelFamily | GraphFamily | AllocationFamily | ResourceClaimFamily | DependencyFamily | CompatibilityFamily {
    static const ALL: seq<GenerationFamily> := [AnyFamily, ModelFamily, AdapterFamily, KvCapacityFamily,
      KvStateFamily, KernelFamily, GraphFamily, AllocationFamily, ResourceClaimFamily, DependencyFamily,
      CompatibilityFamily]

    function Code(): (c: u32)
      ensures c < |ALL| == 11 && ALL[c] == this
    {
      match this
      case AnyFamily => 0 case ModelFamily => 1 case AdapterFamily => 2 case KvCapacityFamily => 3
      case KvStateFamily => 4 case KernelFamily => 5 case GraphFamily => 6 case AllocationFamily => 7
      case ResourceClaimFamily => 8 case DependencyFamily => 9 case CompatibilityFamily => 10
    }
  }

  datatype DrainPhase = NoDrain | DrainRequested | AdmissionFenced | ActiveUseRemaining | BackendCleanupPending |
    Drained | DrainRetired {
    static const ALL: seq<DrainPhase> := [NoDrain, DrainRequested, AdmissionFenced, ActiveUseRemaining,
      BackendCleanupPending, Drained, DrainRetired]

    function Code(): (c: u32)
      ensures c < |ALL| == 7 && ALL[c] == this
    {
      match this
      case NoDrain => 0 case DrainRequested => 1 case AdmissionFenced => 2 case ActiveUseRemaining => 3
      case BackendCleanupPending => 4 case Drained => 5 case DrainRetired => 6
    }
  }

  datatype ReplacementPhase = PlannedReplacement | PreparingReplacement | CandidateReady | Cutover | OldDrain |
    RetireOld | Complete {
    static const ALL: seq<ReplacementPhase> := [PlannedReplacement, PreparingReplacement, CandidateReady, Cutover,
      OldDrain, RetireOld, Complete]

    function Code(): (c: u32)
      ensures c < |ALL| == 7 && ALL[c] == this
    {
      match this
      case PlannedReplacement => 0 case PreparingReplacement => 1 case CandidateReady => 2 case Cutover => 3
      case OldDrain => 4 case RetireOld => 5 case Complete => 6
    }
  }

  datatype CompatibilityKey = CompatibilityKey(ns: bytes, value: bytes) {
    predicate IsValid() { ns != [] && value != [] }
  }

  datatype ProcessId = ProcessId(pid: u32, startSeconds: u64, tag: bytes)

  datatype StateSet = StateSet(
    desired: DesiredResidency, observed: DesiredResidency, lifecycle: ProcessLifecycle,
    preparation: PreparationState, activation: ActivationState, health: HealthState,
    recovery: RecoveryState, registration: RegistrationState, drain: DrainPhase)

  datatype ProfileRequirement = ProfileRequirement(
    category: ComponentCategory, kind: RequirementKind, minState: ComponentState, subject: bytes,
    compatibility: CompatibilityKey, family: GenerationFamily, description: bytes)

  /** Which engine incarnation, worker boot and source produced a record. */
  datatype Origin = Origin(
    engineId: u64, engineGeneration: u64, incarnationId: u64, incarnationGeneration: u64,
    workerId: u64, workerBoot: u64, sourceId: u64, sourceBoot: u64)

  datatype DeviceBinding = DeviceBinding(
    backendId: u64, backendGeneration: u64, deviceId: u64, deviceGeneration: u64,
    contextGeneration: u64, ordinal: u32)

  datatype Generations = Generations(
    model: u64, adapter: u64, kvCapacity: u64, kvState: u64, kernel: u64, graph: u64,
    artifact: u64, allocation: u64, dependency: u64, resourceClaim: u64, warmup: u64)

  /** Measured or reported quantities; maxAgeNs == 0 means the evidence never expires. */
  datatype Measurement = Measurement(sizeBytes: u64, elapsedNs: u64, observedAtNs: u64, maxAgeNs: u64)

  datatype Evidence = Evidence(
    evidenceId: u64, evidenceGeneration: u64, category: ComponentCategory, state: ComponentState,
    provenance: Provenance, subject: bytes, nspace: bytes, origin: Origin, device: DeviceBinding,
    compatibility: CompatibilityKey, generations: Generations, profileId: u64, profileGeneration: u64,
    measured: Measurement, detail: bytes, invalidationReason: bytes, coordinatorEpoch: u64)

  datatype BackendNeed = BackendNeed(id: u64, generation: u64, specific: bool)
  datatype ModelNeed = ModelNeed(id: u64, generation: u64, name: bytes, size: u64)
  datatype AdapterNeed = AdapterNeed(generation: u64, required: bool)
  datatype DeviceNeed = DeviceNeed(id: u64, generation: u64, ordinal: u32, specific: bool)
  datatype KernelNeed = KernelNeed(key: bytes, generation: u64, required: bool)
  datatype GraphNeed = GraphNeed(required: bool, optionalFallback: bool, generation: u64)
  datatype TokenizerNeed = TokenizerNeed(key: bytes, generation: u64, required: bool)

  /** Memory, kernel, graph and tokenizer requirements. */
  datatype ExecutionNeed = ExecutionNeed(
    workspaceBytes: u64, kvCapacityEntries: u64, kernel: KernelNeed, graph: GraphNeed, tokenizer: TokenizerNeed)

  /** Compatibility, preparation, standby and concurrency policy. */
  datatype ServingPolicy = ServingPolicy(
    compatibility: CompatibilityKey, compatibilityRequired: bool, preparationPolicy: bytes,
    warmupRequired: bool, standbyEligible: bool, standbyTarget: u32, maxConcurrency: u32)

  datatype ResourceClaims = ResourceClaims(
    generation: u64, ref: bytes, dependencyRefs: seq<bytes>, dependencyGeneration: u64)

  datatype EngineDefinition = EngineDefinition(
    engineId: u64, engineGeneration: u64, configGeneration: u64, name: bytes, role: ServingRole,
    backend: BackendNeed, model: ModelNeed, adapter: AdapterNeed, device: DeviceNeed,
    execution: ExecutionNeed, policy: ServingPolicy, claims: ResourceClaims, provenance: Provenance,
    profileIds: seq<u64>)

  datatype Shape = Shape(maxBatch: u32, maxSeqLen: u32, dtype: bytes, layout: bytes)

  /** Resource expectations, graph, warmup and device policy of a profile. */
  datatype ProfileNeeds = ProfileNeeds(
    workspaceBytes: u64, modelBytes: u64, kvCapacityEntries: u64, graphRequired: bool,
    graphOptionalFallback: bool, warmupRequired: bool, deviceOrdinal: u32, deviceSpecific: bool)

  datatype ReadinessProfile = ReadinessProfile(
    profileId: u64, profileGeneration: u64, engineId: u64, engineGeneration: u64, name: bytes,
    role: ServingRole, shape: Shape, needs: ProfileNeeds, profileRequired: bool,
    policyGeneration: u64, dependencyGeneration: u64, requirements: seq<ProfileRequirement>,
    compatibility: CompatibilityKey)

  datatype Incarnation = Incarnation(
    incarnationId: u64, incarnationGeneration: u64, engineId: u64, engineGeneration: u64,
    configGeneration: u64, workerId: u64, workerBoot: u64, sourceId: u64, sourceBoot: u64,
    coordinatorEpoch: u64, authorityGeneration: u64, registrationPermit: u64, device: DeviceBinding,
    process: ProcessId, registration: RegistrationState, state: StateSet, readinessGeneration: u64,
    isCurrent: bool, lastActivityNs: u64, nfc: bytes)

  datatype ReplacementPlan = ReplacementPlan(
    replacementId: u64, replacementGeneration: u64, engineId: u64, engineGeneration: u64,
    oldIncarnation: u64, oldIncarnationGeneration: u64, candidateIncarnation: u64,
    candidateIncarnationGeneration: u64, epoch: u64, authority: u64, phase: ReplacementPhase,
    makeBeforeBreak: bool, rollbackRequired: bool, detail: bytes, overlapBytes: u64,
    overlapAvailable: bool)

  datatype CostComponent = CostComponent(
    name: bytes, estimatedNs: u64, measuredNs: u64, provenance: Provenance, size: u64, unit: bytes)

  datatype PersistentState = PersistentState(
    coordinatorEpoch: u64, authorityGeneration: u64, registrationCounter: u64,
    engines: seq<EngineDefinition>, profiles: seq<ReadinessProfile>, incarnations: seq<Incarnation>,
    evidence: seq<Evidence>, replacements: seq<ReplacementPlan>, costHistory: seq<CostComponent>)
}
