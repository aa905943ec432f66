/** persistence.cpp: the Writer and Reader objects and the record writers and readers that drive
    them, each proved against the functions of RecordCodec. */
module Persistence {
  import opened Prelude
  import opened Errors
  import opened Records
  import opened Wire
  import opened RecordCodec
  import opened Fnv

  class Writer {
    var buf: bytes

    constructor ()
      ensures buf == []
    {
      buf := [];
    }

    method U8(v: byte)
      modifies this
      ensures forall rest :: buf + rest == old(buf) + PutU8(v, rest)
    {
      buf := buf + [v];
    }

    method Bool(v: bool)
      modifies this
      ensures forall rest :: buf + rest == old(buf) + PutBool(v, rest)
    {
      U8(if v then 1 else 0);
    }

    /** The loop of u32 and u64: n bytes, least significant first. */
    method Digits(v: nat, n: nat)
      modifies this
      ensures buf == old(buf) + Le(v, n)
    {
      var x := v;
      for i := 0 to n
        invariant buf + Le(x, n - i) == old(buf) + Le(v, n)
      {
        assert Le(x, n - i) == [x % 256] + Le(x / 256, n - i - 1);
        assert buf + Le(x, n - i) == buf + [x % 256] + Le(x / 256, n - i - 1);
        buf := buf + [x % 256];
        x := x / 256;
      }
      assert buf + Le(x, 0) == buf;
    }

    method U32(v: u32)
      modifies this
      ensures forall rest :: buf + rest == old(buf) + PutU32(v, rest)
    {
      Digits(v, 4);
      forall rest
        ensures buf + rest == old(buf) + PutU32(v, rest)
      {
        assert old(buf) + Le(v, 4) + rest == old(buf) + (Le(v, 4) + rest);
      }
    }

    method U64(v: u64)
      modifies this
      ensures forall rest :: buf + rest == old(buf) + PutU64(v, rest)
    {
      Digits(v, 8);
      forall rest
        ensures buf + rest == old(buf) + PutU64(v, rest)
      {
        assert old(buf) + Le(v, 8) + rest == old(buf) + (Le(v, 8) + rest);
      }
    }

    method Str(s: bytes) returns (o: Outcome<ErrorCode>)
      modifies this
      ensures o.Pass? <==> StrFits(s)
      ensures o.Pass? ==> forall rest :: buf + rest == old(buf) + PutStr(s, rest)
    {
      hide PutU32;
      if |s| > MAX_STR {
        return Fail(BoundsExceeded);
      }
      U32(|s|);
      label counted:
      if s != [] {
        buf := buf + s;
      }
      forall rest
        ensures buf + rest == old(buf) + PutStr(s, rest)
      {
        assert buf + rest == old@counted(buf) + (s + rest);
      }
      return Pass;
    }
  }

  class Reader {
    const data: bytes
    var pos: nat

    ghost predicate Valid()
      reads this`pos
    {
      pos <= |data|
    }

    ghost function Rest(): bytes
      requires Valid()
      reads this`pos
    {
      data[pos..]
    }

    /** res and the new position are what `p`, a parse of the bytes that were left, says. */
    ghost predicate Took<T(!new)>(p: Parsed<T>, res: Option<T>)
      requires Valid()
      reads this`pos
    {
      match p
      case None => res == None
      case Some(pair) => res == Some(pair.0) && Rest() == pair.1
    }

    constructor (d: bytes)
      ensures data == d && pos == 0
    {
      data, pos := d, 0;
    }

    method U8() returns (res: Option<byte>)
      modifies this`pos
      requires Valid()
      ensures Valid() && Took(GetU8(old(Rest())), res)
    {
      if pos + 1 > |data| {
        return None;
      }
      pos := pos + 1;
      return Some(data[pos - 1]);
    }

    method Bool() returns (res: Option<bool>)
      modifies this`pos
      requires Valid()
      ensures Valid() && Took(GetBool(old(Rest())), res)
    {
      var b :- U8();
      return Some(b != 0);
    }

    /** The loop of u32 and u64, once n bytes are known to be there. */
    method Digits(n: nat) returns (v: nat)
      modifies this`pos
      requires pos + n <= |data|
      ensures pos == old(pos) + n && v == FromLe(data[old(pos)..pos])
    {
      v := 0;
      var scale: nat := 1;
      for i := 0 to n
        invariant pos == old(pos) + i
        invariant scale == Pow256(i) && v == FromLe(data[old(pos)..pos])
      {
        FromLeAppend(data[old(pos)..pos], data[pos]);
        assert data[old(pos)..pos + 1] == data[old(pos)..pos] + [data[pos]];
        v := v + scale * data[pos];
        scale := 256 * scale;
        pos := pos + 1;
      }
    }

    method U32() returns (res: Option<u32>)
      modifies this`pos
      requires Valid()
      ensures Valid() && Took(GetU32(old(Rest())), res)
    {
      if pos + 4 > |data| {
        return None;
      }
      var v := Digits(4);
      assert data[old(pos)..pos] == old(Rest())[..4];
      Widths();
      FromLeBounded(old(Rest())[..4]);
      return Some(v);
    }

    method U64() returns (res: Option<u64>)
      modifies this`pos
      requires Valid()
      ensures Valid() && Took(GetU64(old(Rest())), res)
    {
      if pos + 8 > |data| {
        return None;
      }
      var v := Digits(8);
      assert data[old(pos)..pos] == old(Rest())[..8];
      Widths();
      FromLeBounded(old(Rest())[..8]);
      return Some(v);
    }

    method Str() returns (res: Option<bytes>)
      modifies this`pos
      requires Valid()
      ensures Valid() && Took(GetStr(old(Rest())), res)
    {
      var n :- U32();
      if n > MAX_STR || pos + n > |data| {
        return None;
      }
      res := Some(data[pos..pos + n]);
      assert data[pos..pos + n] == Rest()[..n];
      assert Rest()[n..] == data[pos + n..];
      pos := pos + n;
    }

    method Code(max: u32) returns (res: Option<u32>)
      modifies this`pos
      requires Valid()
      ensures Valid() && Took(GetCode(max, old(Rest())), res)
      ensures res.Some? ==> res.value <= max
    {
      var c :- U32();
      if c > max {
        return None;
      }
      return Some(c);
    }
  }

  /* ---- record writers ---- */

  lemma PutAllStep<T(!new)>(put: (T, bytes) -> bytes, xs: seq<T>, i: nat)
    requires i < |xs|
    ensures forall rest {:trigger PutAll(put, xs[i + 1..], rest)} ::
              PutAll(put, xs[i..], rest) == put(xs[i], PutAll(put, xs[i + 1..], rest))
  {
    assert xs[i..][1..] == xs[i + 1..];
  }

  lemma PutAllEnd<T(!new)>(put: (T, bytes) -> bytes, xs: seq<T>)
    ensures forall rest {:trigger PutAll(put, xs, rest)} :: PutAll(put, xs[|xs|..], rest) == rest
  {
    assert xs[|xs|..] == [];
  }

  method WriteCompatibility(w: Writer, v: CompatibilityKey) returns (o: Outcome<ErrorCode>)
    modifies w
    ensures o.Pass? <==> CompatibilityFits(v)
    ensures o.Pass? ==> forall rest :: w.buf + rest == old(w.buf) + PutCompatibility(v, rest)
  {
    hide PutStr;
    :- w.Str(v.ns);
    :- w.Str(v.value);
    return Pass;
  }

  method WriteProcess(w: Writer, v: ProcessId) returns (o: Outcome<ErrorCode>)
    modifies w
    ensures o.Pass? <==> ProcessFits(v)
    ensures o.Pass? ==> forall rest :: w.buf + rest == old(w.buf) + PutProcess(v, rest)
  {
    hide PutStr, PutU32, PutU64;
    w.U32(v.pid);
    w.U64(v.startSeconds);
    :- w.Str(v.tag);
    return Pass;
  }

  method WriteStateSet(w: Writer, v: StateSet)
    modifies w
    ensures forall rest :: w.buf + rest == old(w.buf) + PutStateSet(v, rest)
  {
    hide PutU32;
    w.U32(v.desired.Code());
    w.U32(v.observed.Code());
    w.U32(v.lifecycle.Code());
    w.U32(v.preparation.Code());
    w.U32(v.activation.Code());
    w.U32(v.health.Code());
    w.U32(v.recovery.Code());
    w.U32(v.registration.Code());
    w.U32(v.drain.Code());
  }

  method WriteRequirement(w: Writer, v: ProfileRequirement) returns (o: Outcome<ErrorCode>)
    modifies w
    ensures o.Pass? <==> RequirementFits(v)
    ensures o.Pass? ==> forall rest :: w.buf + rest == old(w.buf) + PutRequirement(v, rest)
  {
    hide PutCompatibility, PutStr, PutU32;
    w.U32(v.category.Code());
    w.U32(v.kind.Code());
    w.U32(v.minState.Code());
    :- w.Str(v.subject);
    :- WriteCompatibility(w, v.compatibility);
    w.U32(v.family.Code());
    :- w.Str(v.description);
    return Pass;
  }

  method WriteOrigin(w: Writer, v: Origin)
    modifies w
    ensures forall rest :: w.buf + rest == old(w.buf) + PutOrigin(v, rest)
  {
    hide PutU64;
    w.U64(v.engineId);
    w.U64(v.engineGeneration);
    w.U64(v.incarnationId);
    w.U64(v.incarnationGeneration);
    w.U64(v.workerId);
    w.U64(v.workerBoot);
    w.U64(v.sourceId);
    w.U64(v.sourceBoot);
  }

  method WriteDevice(w: Writer, v: DeviceBinding)
    modifies w
    ensures forall rest :: w.buf + rest == old(w.buf) + PutDevice(v, rest)
  {
    hide PutU32, PutU64;
    w.U64(v.backendId);
    w.U64(v.backendGeneration);
    w.U64(v.deviceId);
    w.U64(v.deviceGeneration);
    w.U64(v.contextGeneration);
    w.U32(v.ordinal);
  }

  method WriteGenerations(w: Writer, v: Generations)
    modifies w
    ensures forall rest :: w.buf + rest == old(w.buf) + PutGenerations(v, rest)
  {
    hide PutU64;
    w.U64(v.model);
    w.U64(v.adapter);
    w.U64(v.kvCapacity);
    w.U64(v.kvState);
    w.U64(v.kernel);
    w.U64(v.graph);
    w.U64(v.artifact);
    w.U64(v.allocation);
    w.U64(v.dependency);
    w.U64(v.resourceClaim);
    w.U64(v.warmup);
  }

  method WriteMeasurement(w: Writer, v: Measurement)
    modifies w
    ensures forall rest :: w.buf + rest == old(w.buf) + PutMeasurement(v, rest)
  {
    hide PutU64;
    w.U64(v.sizeBytes);
    w.U64(v.elapsedNs);
    w.U64(v.observedAtNs);
    w.U64(v.maxAgeNs);
  }

  method WriteEvidence(w: Writer, v: Evidence) returns (o: Outcome<ErrorCode>)
    modifies w
    ensures o.Pass? <==> EvidenceFits(v)
    ensures o.Pass? ==> forall rest :: w.buf + rest == old(w.buf) + PutEvidence(v, rest)
  {
    hide PutCompatibility, PutDevice, PutGenerations, PutMeasurement, PutOrigin, PutStr, PutU32, PutU64;
    w.U64(v.evidenceId);
    w.U64(v.evidenceGeneration);
    w.U32(v.category.Code());
    w.U32(v.state.Code());
    w.U32(v.provenance.Code());
    :- w.Str(v.subject);
    :- w.Str(v.nspace);
    WriteOrigin(w, v.origin);
    WriteDevice(w, v.device);
    :- WriteCompatibility(w, v.compatibility);
    WriteGenerations(w, v.generations);
    w.U64(v.profileId);
    w.U64(v.profileGeneration);
    WriteMeasurement(w, v.measured);
    :- w.Str(v.detail);
    :- w.Str(v.invalidationReason);
    w.U64(v.coordinatorEpoch);
    return Pass;
  }

  method WriteBackendNeed(w: Writer, v: BackendNeed)
    modifies w
    ensures forall rest :: w.buf + rest == old(w.buf) + PutBackendNeed(v, rest)
  {
    hide PutBool, PutU64;
    w.U64(v.id);
    w.U64(v.generation);
    w.Bool(v.specific);
  }

  method WriteModelNeed(w: Writer, v: ModelNeed) returns (o: Outcome<ErrorCode>)
    modifies w
    ensures o.Pass? <==> ModelNeedFits(v)
    ensures o.Pass? ==> forall rest :: w.buf + rest == old(w.buf) + PutModelNeed(v, rest)
  {
    hide PutStr, PutU64;
    w.U64(v.id);
    w.U64(v.generation);
    :- w.Str(v.name);
    w.U64(v.size);
    return Pass;
  }

  method WriteAdapterNeed(w: Writer, v: AdapterNeed)
    modifies w
    ensures forall rest :: w.buf + rest == old(w.buf) + PutAdapterNeed(v, rest)
  {
    hide PutBool, PutU64;
    w.U64(v.generation);
    w.Bool(v.required);
  }

  method WriteDeviceNeed(w: Writer, v: DeviceNeed)
    modifies w
    ensures forall rest :: w.buf + rest == old(w.buf) + PutDeviceNeed(v, rest)
  {
    hide PutBool, PutU32, PutU64;
    w.U64(v.id);
    w.U64(v.generation);
    w.U32(v.ordinal);
    w.Bool(v.specific);
  }

  method WriteKernelNeed(w: Writer, v: KernelNeed) returns (o: Outcome<ErrorCode>)
    modifies w
    ensures o.Pass? <==> KernelNeedFits(v)
    ensures o.Pass? ==> forall rest :: w.buf + rest == old(w.buf) + PutKernelNeed(v, rest)
  {
    hide PutBool, PutStr, PutU64;
    :- w.Str(v.key);
    w.U64(v.generation);
    w.Bool(v.required);
    return Pass;
  }

  method WriteGraphNeed(w: Writer, v: GraphNeed)
    modifies w
    ensures forall rest :: w.buf + rest == old(w.buf) + PutGraphNeed(v, rest)
  {
    hide PutBool, PutU64;
    w.Bool(v.required);
    w.Bool(v.optionalFallback);
    w.U64(v.generation);
  }

  method WriteTokenizerNeed(w: Writer, v: TokenizerNeed) returns (o: Outcome<ErrorCode>)
    modifies w
    ensures o.Pass? <==> TokenizerNeedFits(v)
    ensures o.Pass? ==> forall rest :: w.buf + rest == old(w.buf) + PutTokenizerNeed(v, rest)
  {
    hide PutBool, PutStr, PutU64;
    :- w.Str(v.key);
    w.U64(v.generation);
    w.Bool(v.required);
    return Pass;
  }

  method WriteExecutionNeed(w: Writer, v: ExecutionNeed) returns (o: Outcome<ErrorCode>)
    modifies w
    ensures o.Pass? <==> ExecutionNeedFits(v)
    ensures o.Pass? ==> forall rest :: w.buf + rest == old(w.buf) + PutExecutionNeed(v, rest)
  {
    hide PutGraphNeed, PutKernelNeed, PutTokenizerNeed, PutU64;
    w.U64(v.workspaceBytes);
    w.U64(v.kvCapacityEntries);
    :- WriteKernelNeed(w, v.kernel);
    WriteGraphNeed(w, v.graph);
    :- WriteTokenizerNeed(w, v.tokenizer);
    return Pass;
  }

  method WritePolicy(w: Writer, v: ServingPolicy) returns (o: Outcome<ErrorCode>)
    modifies w
    ensures o.Pass? <==> PolicyFits(v)
    ensures o.Pass? ==> forall rest :: w.buf + rest == old(w.buf) + PutPolicy(v, rest)
  {
    hide PutBool, PutCompatibility, PutStr, PutU32;
    :- WriteCompatibility(w, v.compatibility);
    w.Bool(v.compatibilityRequired);
    :- w.Str(v.preparationPolicy);
    w.Bool(v.warmupRequired);
    w.Bool(v.standbyEligible);
    w.U32(v.standbyTarget);
    w.U32(v.maxConcurrency);
    return Pass;
  }

  method WriteClaims(w: Writer, v: ResourceClaims) returns (o: Outcome<ErrorCode>)
    modifies w
    ensures o.Pass? <==> ClaimsWritable(v)
    ensures o.Pass? ==> forall rest :: w.buf + rest == old(w.buf) + PutClaims(v, rest)
  {
    hide PutList, PutStr, PutU64;
    w.U64(v.generation);
    :- w.Str(v.ref);
    :- WriteStrs(w, v.dependencyRefs);
    w.U64(v.dependencyGeneration);
    return Pass;
  }

  method WriteEngine(w: Writer, v: EngineDefinition) returns (o: Outcome<ErrorCode>)
    modifies w
    ensures o.Pass? <==> EngineWritable(v)
    ensures o.Pass? ==> forall rest :: w.buf + rest == old(w.buf) + PutEngine(v, rest)
  {
    hide PutAdapterNeed, PutBackendNeed, PutClaims, PutDeviceNeed, PutExecutionNeed, PutList, PutModelNeed,
    PutPolicy, PutStr, PutU32, PutU64;
    w.U64(v.engineId);
    w.U64(v.engineGeneration);
    w.U64(v.configGeneration);
    :- w.Str(v.name);
    w.U32(v.role.Code());
    WriteBackendNeed(w, v.backend);
    :- WriteModelNeed(w, v.model);
    WriteAdapterNeed(w, v.adapter);
    WriteDeviceNeed(w, v.device);
    :- WriteExecutionNeed(w, v.execution);
    :- WritePolicy(w, v.policy);
    :- WriteClaims(w, v.claims);
    w.U32(v.provenance.Code());
    WriteU64s(w, v.profileIds);
    return Pass;
  }

  method WriteShape(w: Writer, v: Shape) returns (o: Outcome<ErrorCode>)
    modifies w
    ensures o.Pass? <==> ShapeFits(v)
    ensures o.Pass? ==> forall rest :: w.buf + rest == old(w.buf) + PutShape(v, rest)
  {
    hide PutStr, PutU32;
    w.U32(v.maxBatch);
    w.U32(v.maxSeqLen);
    :- w.Str(v.dtype);
    :- w.Str(v.layout);
    return Pass;
  }

  method WriteNeeds(w: Writer, v: ProfileNeeds)
    modifies w
    ensures forall rest :: w.buf + rest == old(w.buf) + PutNeeds(v, rest)
  {
    hide PutBool, PutU32, PutU64;
    w.U64(v.workspaceBytes);
    w.U64(v.modelBytes);
    w.U64(v.kvCapacityEntries);
    w.Bool(v.graphRequired);
    w.Bool(v.graphOptionalFallback);
    w.Bool(v.warmupRequired);
    w.U32(v.deviceOrdinal);
    w.Bool(v.deviceSpecific);
  }

  method WriteProfile(w: Writer, v: ReadinessProfile) returns (o: Outcome<ErrorCode>)
    modifies w
    ensures o.Pass? <==> ProfileWritable(v)
    ensures o.Pass? ==> forall rest :: w.buf + rest == old(w.buf) + PutProfile(v, rest)
  {
    hide PutBool, PutCompatibility, PutList, PutNeeds, PutShape, PutStr, PutU32, PutU64;
    w.U64(v.profileId);
    w.U64(v.profileGeneration);
    w.U64(v.engineId);
    w.U64(v.engineGeneration);
    :- w.Str(v.name);
    w.U32(v.role.Code());
    :- WriteShape(w, v.shape);
    WriteNeeds(w, v.needs);
    w.Bool(v.profileRequired);
    w.U64(v.policyGeneration);
    w.U64(v.dependencyGeneration);
    :- WriteRequirements(w, v.requirements);
    :- WriteCompatibility(w, v.compatibility);
    return Pass;
  }

  method WriteIncarnation(w: Writer, v: Incarnation) returns (o: Outcome<ErrorCode>)
    modifies w
    ensures o.Pass? <==> IncarnationFits(v)
    ensures o.Pass? ==> forall rest :: w.buf + rest == old(w.buf) + PutIncarnation(v, rest)
  {
    hide PutBool, PutDevice, PutProcess, PutStateSet, PutStr, PutU32, PutU64;
    w.U64(v.incarnationId);
    w.U64(v.incarnationGeneration);
    w.U64(v.engineId);
    w.U64(v.engineGeneration);
    w.U64(v.configGeneration);
    w.U64(v.workerId);
    w.U64(v.workerBoot);
    w.U64(v.sourceId);
    w.U64(v.sourceBoot);
    w.U64(v.coordinatorEpoch);
    w.U64(v.authorityGeneration);
    w.U64(v.registrationPermit);
    WriteDevice(w, v.device);
    :- WriteProcess(w, v.process);
    w.U32(v.registration.Code());
    WriteStateSet(w, v.state);
    w.U64(v.readinessGeneration);
    w.Bool(v.isCurrent);
    w.U64(v.lastActivityNs);
    :- w.Str(v.nfc);
    return Pass;
  }

  method WriteReplacement(w: Writer, v: ReplacementPlan) returns (o: Outcome<ErrorCode>)
    modifies w
    ensures o.Pass? <==> ReplacementFits(v)
    ensures o.Pass? ==> forall rest :: w.buf + rest == old(w.buf) + PutReplacement(v, rest)
  {
    hide PutBool, PutStr, PutU32, PutU64;
    w.U64(v.replacementId);
    w.U64(v.replacementGeneration);
    w.U64(v.engineId);
    w.U64(v.engineGeneration);
    w.U64(v.oldIncarnation);
    w.U64(v.oldIncarnationGeneration);
    w.U64(v.candidateIncarnation);
    w.U64(v.candidateIncarnationGeneration);
    w.U64(v.epoch);
    w.U64(v.authority);
    w.U32(v.phase.Code());
    w.Bool(v.makeBeforeBreak);
    w.Bool(v.rollbackRequired);
    :- w.Str(v.detail);
    w.U64(v.overlapBytes);
    w.Bool(v.overlapAvailable);
    return Pass;
  }

  method WriteCost(w: Writer, v: CostComponent) returns (o: Outcome<ErrorCode>)
    modifies w
    ensures o.Pass? <==> CostFits(v)
    ensures o.Pass? ==> forall rest :: w.buf + rest == old(w.buf) + PutCost(v, rest)
  {
    hide PutStr, PutU32, PutU64;
    :- w.Str(v.name);
    w.U64(v.estimatedNs);
    w.U64(v.measuredNs);
    w.U32(v.provenance.Code());
    w.U64(v.size);
    :- w.Str(v.unit);
    return Pass;
  }

  method WriteStrs(w: Writer, xs: seq<bytes>) returns (o: Outcome<ErrorCode>)
    modifies w
    ensures o.Pass? <==> forall x :: x in xs ==> StrFits(x)
    ensures o.Pass? ==> forall rest :: w.buf + rest == old(w.buf) + PutList(PutStr, xs, rest)
  {
    hide PutU32, PutStr;
    w.U32(|xs| % TWO32);
    ghost var head := w.buf;
    assert xs[0..] == xs;
    for i := 0 to |xs|
      invariant forall k :: 0 <= k < i ==> StrFits(xs[k])
      invariant forall rest :: w.buf + PutAll(PutStr, xs[i..], rest) == head + PutAll(PutStr, xs, rest)
    {
      :- w.Str(xs[i]);
      PutAllStep(PutStr, xs, i);
    }
    PutAllEnd(PutStr, xs);
    return Pass;
  }

  method WriteU64s(w: Writer, xs: seq<u64>)
    modifies w
    ensures forall rest :: w.buf + rest == old(w.buf) + PutList(PutU64, xs, rest)
  {
    hide PutU32, PutU64;
    w.U32(|xs| % TWO32);
    ghost var head := w.buf;
    assert xs[0..] == xs;
    for i := 0 to |xs|
      invariant forall rest :: w.buf + PutAll(PutU64, xs[i..], rest) == head + PutAll(PutU64, xs, rest)
    {
      w.U64(xs[i]);
      PutAllStep(PutU64, xs, i);
    }
    PutAllEnd(PutU64, xs);
  }

  method WriteRequirements(w: Writer, xs: seq<ProfileRequirement>) returns (o: Outcome<ErrorCode>)
    modifies w
    ensures o.Pass? <==> forall x :: x in xs ==> RequirementFits(x)
    ensures o.Pass? ==> forall rest :: w.buf + rest == old(w.buf) + PutList(PutRequirement, xs, rest)
  {
    hide PutU32, PutRequirement;
    w.U32(|xs| % TWO32);
    ghost var head := w.buf;
    assert xs[0..] == xs;
    for i := 0 to |xs|
      invariant forall k :: 0 <= k < i ==> RequirementFits(xs[k])
      invariant forall rest :: w.buf + PutAll(PutRequirement, xs[i..], rest) == head + PutAll(PutRequirement, xs, rest)
    {
      :- WriteRequirement(w, xs[i]);
      PutAllStep(PutRequirement, xs, i);
    }
    PutAllEnd(PutRequirement, xs);
    return Pass;
  }

  method WriteEngines(w: Writer, xs: seq<EngineDefinition>) returns (o: Outcome<ErrorCode>)
    modifies w
    ensures o.Pass? <==> forall x :: x in xs ==> EngineWritable(x)
    ensures o.Pass? ==> forall rest :: w.buf + rest == old(w.buf) + PutList(PutEngine, xs, rest)
  {
    hide PutU32, PutEngine;
    w.U32(|xs| % TWO32);
    ghost var head := w.buf;
    assert xs[0..] == xs;
    for i := 0 to |xs|
      invariant forall k :: 0 <= k < i ==> EngineWritable(xs[k])
      invariant forall rest :: w.buf + PutAll(PutEngine, xs[i..], rest) == head + PutAll(PutEngine, xs, rest)
    {
      :- WriteEngine(w, xs[i]);
      PutAllStep(PutEngine, xs, i);
    }
    PutAllEnd(PutEngine, xs);
    return Pass;
  }

  method WriteProfiles(w: Writer, xs: seq<ReadinessProfile>) returns (o: Outcome<ErrorCode>)
    modifies w
    ensures o.Pass? <==> forall x :: x in xs ==> ProfileWritable(x)
    ensures o.Pass? ==> forall rest :: w.buf + rest == old(w.buf) + PutList(PutProfile, xs, rest)
  {
    hide PutU32, PutProfile;
    w.U32(|xs| % TWO32);
    ghost var head := w.buf;
    assert xs[0..] == xs;
    for i := 0 to |xs|
      invariant forall k :: 0 <= k < i ==> ProfileWritable(xs[k])
      invariant forall rest :: w.buf + PutAll(PutProfile, xs[i..], rest) == head + PutAll(PutProfile, xs, rest)
    {
      :- WriteProfile(w, xs[i]);
      PutAllStep(PutProfile, xs, i);
    }
    PutAllEnd(PutProfile, xs);
    return Pass;
  }

  method WriteIncarnations(w: Writer, xs: seq<Incarnation>) returns (o: Outcome<ErrorCode>)
    modifies w
    ensures o.Pass? <==> forall x :: x in xs ==> IncarnationFits(x)
    ensures o.Pass? ==> forall rest :: w.buf + rest == old(w.buf) + PutList(PutIncarnation, xs, rest)
  {
    hide PutU32, PutIncarnation;
    w.U32(|xs| % TWO32);
    ghost var head := w.buf;
    assert xs[0..] == xs;
    for i := 0 to |xs|
      invariant forall k :: 0 <= k < i ==> IncarnationFits(xs[k])
      invariant forall rest :: w.buf + PutAll(PutIncarnation, xs[i..], rest) == head + PutAll(PutIncarnation, xs, rest)
    {
      :- WriteIncarnation(w, xs[i]);
      PutAllStep(PutIncarnation, xs, i);
    }
    PutAllEnd(PutIncarnation, xs);
    return Pass;
  }

  method WriteEvidences(w: Writer, xs: seq<Evidence>) returns (o: Outcome<ErrorCode>)
    modifies w
    ensures o.Pass? <==> forall x :: x in xs ==> EvidenceFits(x)
    ensures o.Pass? ==> forall rest :: w.buf + rest == old(w.buf) + PutList(PutEvidence, xs, rest)
  {
    hide PutU32, PutEvidence;
    w.U32(|xs| % TWO32);
    ghost var head := w.buf;
    assert xs[0..] == xs;
    for i := 0 to |xs|
      invariant forall k :: 0 <= k < i ==> EvidenceFits(xs[k])
      invariant forall rest :: w.buf + PutAll(PutEvidence, xs[i..], rest) == head + PutAll(PutEvidence, xs, rest)
    {
      :- WriteEvidence(w, xs[i]);
      PutAllStep(PutEvidence, xs, i);
    }
    PutAllEnd(PutEvidence, xs);
    return Pass;
  }

  method WriteReplacements(w: Writer, xs: seq<ReplacementPlan>) returns (o: Outcome<ErrorCode>)
    modifies w
    ensures o.Pass? <==> forall x :: x in xs ==> ReplacementFits(x)
    ensures o.Pass? ==> forall rest :: w.buf + rest == old(w.buf) + PutList(PutReplacement, xs, rest)
  {
    hide PutU32, PutReplacement;
    w.U32(|xs| % TWO32);
    ghost var head := w.buf;
    assert xs[0..] == xs;
    for i := 0 to |xs|
      invariant forall k :: 0 <= k < i ==> ReplacementFits(xs[k])
      invariant forall rest :: w.buf + PutAll(PutReplacement, xs[i..], rest) == head + PutAll(PutReplacement, xs, rest)
    {
      :- WriteReplacement(w, xs[i]);
      PutAllStep(PutReplacement, xs, i);
    }
    PutAllEnd(PutReplacement, xs);
    return Pass;
  }

  method WriteCosts(w: Writer, xs: seq<CostComponent>) returns (o: Outcome<ErrorCode>)
    modifies w
    ensures o.Pass? <==> forall x :: x in xs ==> CostFits(x)
    ensures o.Pass? ==> forall rest :: w.buf + rest == old(w.buf) + PutList(PutCost, xs, rest)
  {
    hide PutU32, PutCost;
    w.U32(|xs| % TWO32);
    ghost var head := w.buf;
    assert xs[0..] == xs;
    for i := 0 to |xs|
      invariant forall k :: 0 <= k < i ==> CostFits(xs[k])
      invariant forall rest :: w.buf + PutAll(PutCost, xs[i..], rest) == head + PutAll(PutCost, xs, rest)
    {
      :- WriteCost(w, xs[i]);
      PutAllStep(PutCost, xs, i);
    }
    PutAllEnd(PutCost, xs);
    return Pass;
  }

  /* ---- record readers ---- */

  method ReadCompatibility(r: Reader) returns (res: Option<CompatibilityKey>)
    modifies r`pos
    requires r.Valid()
    ensures r.Valid() && r.Took(GetCompatibility(old(r.Rest())), res)
  {
    hide GetStr;
    var ns :- r.Str();
    var value :- r.Str();
    return Some(CompatibilityKey(ns, value));
  }

  method ReadProcess(r: Reader) returns (res: Option<ProcessId>)
    modifies r`pos
    requires r.Valid()
    ensures r.Valid() && r.Took(GetProcess(old(r.Rest())), res)
  {
    hide GetStr, GetU32, GetU64;
    var pid :- r.U32();
    var startSeconds :- r.U64();
    var tag :- r.Str();
    return Some(ProcessId(pid, startSeconds, tag));
  }

  method ReadStateSet(r: Reader) returns (res: Option<StateSet>)
    modifies r`pos
    requires r.Valid()
    ensures r.Valid() && r.Took(GetStateSet(old(r.Rest())), res)
  {
    hide GetCode;
    var desired :- r.Code(3);
    var observed :- r.Code(3);
    var lifecycle :- r.Code(8);
    var preparation :- r.Code(6);
    var activation :- r.Code(5);
    var health :- r.Code(5);
    var recovery :- r.Code(5);
    var registration :- r.Code(4);
    var drain :- r.Code(6);
    return Some(StateSet(DesiredResidency.ALL[desired], DesiredResidency.ALL[observed],
    ProcessLifecycle.ALL[lifecycle], PreparationState.ALL[preparation], ActivationState.ALL[activation],
    HealthState.ALL[health], RecoveryState.ALL[recovery], RegistrationState.ALL[registration],
    DrainPhase.ALL[drain]));
  }

  method ReadRequirement(r: Reader) returns (res: Option<ProfileRequirement>)
    modifies r`pos
    requires r.Valid()
    ensures r.Valid() && r.Took(GetRequirement(old(r.Rest())), res)
  {
    hide CompatibilityFits, GetCode, GetCompatibility, GetStr;
    var category :- r.Code(13);
    var kind :- r.Code(3);
    var minState :- r.Code(9);
    var subject :- r.Str();
    var compatibility :- ReadCompatibility(r);
    var family :- r.Code(10);
    var description :- r.Str();
    return Some(ProfileRequirement(ComponentCategory.ALL[category], RequirementKind.ALL[kind],
    ComponentState.ALL[minState], subject, compatibility, GenerationFamily.ALL[family], description));
  }

  method ReadOrigin(r: Reader) returns (res: Option<Origin>)
    modifies r`pos
    requires r.Valid()
    ensures r.Valid() && r.Took(GetOrigin(old(r.Rest())), res)
  {
    hide GetU64;
    var engineId :- r.U64();
    var engineGeneration :- r.U64();
    var incarnationId :- r.U64();
    var incarnationGeneration :- r.U64();
    var workerId :- r.U64();
    var workerBoot :- r.U64();
    var sourceId :- r.U64();
    var sourceBoot :- r.U64();
    return Some(Origin(engineId, engineGeneration, incarnationId, incarnationGeneration, workerId, workerBoot,
    sourceId, sourceBoot));
  }

  method ReadDevice(r: Reader) returns (res: Option<DeviceBinding>)
    modifies r`pos
    requires r.Valid()
    ensures r.Valid() && r.Took(GetDevice(old(r.Rest())), res)
  {
    hide GetU32, GetU64;
    var backendId :- r.U64();
    var backendGeneration :- r.U64();
    var deviceId :- r.U64();
    var deviceGeneration :- r.U64();
    var contextGeneration :- r.U64();
    var ordinal :- r.U32();
    return Some(DeviceBinding(backendId, backendGeneration, deviceId, deviceGeneration, contextGeneration,
    ordinal));
  }

  method ReadGenerations(r: Reader) returns (res: Option<Generations>)
    modifies r`pos
    requires r.Valid()
    ensures r.Valid() && r.Took(GetGenerations(old(r.Rest())), res)
  {
    hide GetU64;
    var model :- r.U64();
    var adapter :- r.U64();
    var kvCapacity :- r.U64();
    var kvState :- r.U64();
    var kernel :- r.U64();
    var graph :- r.U64();
    var artifact :- r.U64();
    var allocation :- r.U64();
    var dependency :- r.U64();
    var resourceClaim :- r.U64();
    var warmup :- r.U64();
    return Some(Generations(model, adapter, kvCapacity, kvState, kernel, graph, artifact, allocation,
    dependency, resourceClaim, warmup));
  }

  method ReadMeasurement(r: Reader) returns (res: Option<Measurement>)
    modifies r`pos
    requires r.Valid()
    ensures r.Valid() && r.Took(GetMeasurement(old(r.Rest())), res)
  {
    hide GetU64;
    var sizeBytes :- r.U64();
    var elapsedNs :- r.U64();
    var observedAtNs :- r.U64();
    var maxAgeNs :- r.U64();
    return Some(Measurement(sizeBytes, elapsedNs, observedAtNs, maxAgeNs));
  }

  method ReadEvidence(r: Reader) returns (res: Option<Evidence>)
    modifies r`pos
    requires r.Valid()
    ensures r.Valid() && r.Took(GetEvidence(old(r.Rest())), res)
  {
    hide CompatibilityFits, GetCode, GetCompatibility, GetDevice, GetGenerations, GetMeasurement, GetOrigin,
    GetStr, GetU64;
    var evidenceId :- r.U64();
    var evidenceGeneration :- r.U64();
    var category :- r.Code(13);
    var state :- r.Code(9);
    var provenance :- r.Code(6);
    var subject :- r.Str();
    var nspace :- r.Str();
    var origin :- ReadOrigin(r);
    var device :- ReadDevice(r);
    var compatibility :- ReadCompatibility(r);
    var generations :- ReadGenerations(r);
    var profileId :- r.U64();
    var profileGeneration :- r.U64();
    var measured :- ReadMeasurement(r);
    var detail :- r.Str();
    var invalidationReason :- r.Str();
    var coordinatorEpoch :- r.U64();
    return Some(Evidence(evidenceId, evidenceGeneration, ComponentCategory.ALL[category],
    ComponentState.ALL[state], Provenance.ALL[provenance], subject, nspace, origin, device, compatibility,
    generations, profileId, profileGeneration, measured, detail, invalidationReason, coordinatorEpoch));
  }

  method ReadBackendNeed(r: Reader) returns (res: Option<BackendNeed>)
    modifies r`pos
    requires r.Valid()
    ensures r.Valid() && r.Took(GetBackendNeed(old(r.Rest())), res)
  {
    hide GetBool, GetU64;
    var id :- r.U64();
    var generation :- r.U64();
    var specific :- r.Bool();
    return Some(BackendNeed(id, generation, specific));
  }

  method ReadModelNeed(r: Reader) returns (res: Option<ModelNeed>)
    modifies r`pos
    requires r.Valid()
    ensures r.Valid() && r.Took(GetModelNeed(old(r.Rest())), res)
  {
    hide GetStr, GetU64;
    var id :- r.U64();
    var generation :- r.U64();
    var name :- r.Str();
    var size :- r.U64();
    return Some(ModelNeed(id, generation, name, size));
  }

  method ReadAdapterNeed(r: Reader) returns (res: Option<AdapterNeed>)
    modifies r`pos
    requires r.Valid()
    ensures r.Valid() && r.Took(GetAdapterNeed(old(r.Rest())), res)
  {
    hide GetBool, GetU64;
    var generation :- r.U64();
    var required :- r.Bool();
    return Some(AdapterNeed(generation, required));
  }

  method ReadDeviceNeed(r: Reader) returns (res: Option<DeviceNeed>)
    modifies r`pos
    requires r.Valid()
    ensures r.Valid() && r.Took(GetDeviceNeed(old(r.Rest())), res)
  {
    hide GetBool, GetU32, GetU64;
    var id :- r.U64();
    var generation :- r.U64();
    var ordinal :- r.U32();
    var specific :- r.Bool();
    return Some(DeviceNeed(id, generation, ordinal, specific));
  }

  method ReadKernelNeed(r: Reader) returns (res: Option<KernelNeed>)
    modifies r`pos
    requires r.Valid()
    ensures r.Valid() && r.Took(GetKernelNeed(old(r.Rest())), res)
  {
    hide GetBool, GetStr, GetU64;
    var key :- r.Str();
    var generation :- r.U64();
    var required :- r.Bool();
    return Some(KernelNeed(key, generation, required));
  }

  method ReadGraphNeed(r: Reader) returns (res: Option<GraphNeed>)
    modifies r`pos
    requires r.Valid()
    ensures r.Valid() && r.Took(GetGraphNeed(old(r.Rest())), res)
  {
    hide GetBool, GetU64;
    var required :- r.Bool();
    var optionalFallback :- r.Bool();
    var generation :- r.U64();
    return Some(GraphNeed(required, optionalFallback, generation));
  }

  method ReadTokenizerNeed(r: Reader) returns (res: Option<TokenizerNeed>)
    modifies r`pos
    requires r.Valid()
    ensures r.Valid() && r.Took(GetTokenizerNeed(old(r.Rest())), res)
  {
    hide GetBool, GetStr, GetU64;
    var key :- r.Str();
    var generation :- r.U64();
    var required :- r.Bool();
    return Some(TokenizerNeed(key, generation, required));
  }

  method ReadExecutionNeed(r: Reader) returns (res: Option<ExecutionNeed>)
    modifies r`pos
    requires r.Valid()
    ensures r.Valid() && r.Took(GetExecutionNeed(old(r.Rest())), res)
  {
    hide GetGraphNeed, GetKernelNeed, GetTokenizerNeed, GetU64, KernelNeedFits, TokenizerNeedFits;
    var workspaceBytes :- r.U64();
    var kvCapacityEntries :- r.U64();
    var kernel :- ReadKernelNeed(r);
    var graph :- ReadGraphNeed(r);
    var tokenizer :- ReadTokenizerNeed(r);
    return Some(ExecutionNeed(workspaceBytes, kvCapacityEntries, kernel, graph, tokenizer));
  }

  method ReadPolicy(r: Reader) returns (res: Option<ServingPolicy>)
    modifies r`pos
    requires r.Valid()
    ensures r.Valid() && r.Took(GetPolicy(old(r.Rest())), res)
  {
    hide CompatibilityFits, GetBool, GetCompatibility, GetStr, GetU32;
    var compatibility :- ReadCompatibility(r);
    var compatibilityRequired :- r.Bool();
    var preparationPolicy :- r.Str();
    var warmupRequired :- r.Bool();
    var standbyEligible :- r.Bool();
    var standbyTarget :- r.U32();
    var maxConcurrency :- r.U32();
    return Some(ServingPolicy(compatibility, compatibilityRequired, preparationPolicy, warmupRequired,
    standbyEligible, standbyTarget, maxConcurrency));
  }

  method ReadClaims(r: Reader) returns (res: Option<ResourceClaims>)
    modifies r`pos
    requires r.Valid()
    ensures r.Valid() && r.Took(GetClaims(old(r.Rest())), res)
  {
    hide GetList, GetStr, GetU64;
    var generation :- r.U64();
    var ref :- r.Str();
    var dependencyRefs :- ReadStrs(r);
    var dependencyGeneration :- r.U64();
    return Some(ResourceClaims(generation, ref, dependencyRefs, dependencyGeneration));
  }

  method ReadEngine(r: Reader) returns (res: Option<EngineDefinition>)
    modifies r`pos
    requires r.Valid()
    ensures r.Valid() && r.Took(GetEngine(old(r.Rest())), res)
  {
    hide ClaimsWritable, ClaimsFits, ExecutionNeedFits, GetAdapterNeed, GetBackendNeed, GetClaims, GetCode,
    GetDeviceNeed, GetExecutionNeed, GetList, GetModelNeed, GetPolicy, GetStr, GetU64, ModelNeedFits,
    PolicyFits;
    var engineId :- r.U64();
    var engineGeneration :- r.U64();
    var configGeneration :- r.U64();
    var name :- r.Str();
    var role :- r.Code(7);
    var backend :- ReadBackendNeed(r);
    var model :- ReadModelNeed(r);
    var adapter :- ReadAdapterNeed(r);
    var device :- ReadDeviceNeed(r);
    var execution :- ReadExecutionNeed(r);
    var policy :- ReadPolicy(r);
    var claims :- ReadClaims(r);
    var provenance :- r.Code(6);
    var profileIds :- ReadU64s(r);
    return Some(EngineDefinition(engineId, engineGeneration, configGeneration, name, ServingRole.ALL[role],
    backend, model, adapter, device, execution, policy, claims, Provenance.ALL[provenance], profileIds));
  }

  method ReadShape(r: Reader) returns (res: Option<Shape>)
    modifies r`pos
    requires r.Valid()
    ensures r.Valid() && r.Took(GetShape(old(r.Rest())), res)
  {
    hide GetStr, GetU32;
    var maxBatch :- r.U32();
    var maxSeqLen :- r.U32();
    var dtype :- r.Str();
    var layout :- r.Str();
    return Some(Shape(maxBatch, maxSeqLen, dtype, layout));
  }

  method ReadNeeds(r: Reader) returns (res: Option<ProfileNeeds>)
    modifies r`pos
    requires r.Valid()
    ensures r.Valid() && r.Took(GetNeeds(old(r.Rest())), res)
  {
    hide GetBool, GetU32, GetU64;
    var workspaceBytes :- r.U64();
    var modelBytes :- r.U64();
    var kvCapacityEntries :- r.U64();
    var graphRequired :- r.Bool();
    var graphOptionalFallback :- r.Bool();
    var warmupRequired :- r.Bool();
    var deviceOrdinal :- r.U32();
    var deviceSpecific :- r.Bool();
    return Some(ProfileNeeds(workspaceBytes, modelBytes, kvCapacityEntries, graphRequired,
    graphOptionalFallback, warmupRequired, deviceOrdinal, deviceSpecific));
  }

  method ReadProfile(r: Reader) returns (res: Option<ReadinessProfile>)
    modifies r`pos
    requires r.Valid()
    ensures r.Valid() && r.Took(GetProfile(old(r.Rest())), res)
  {
    hide CompatibilityFits, GetBool, GetCode, GetCompatibility, GetList, GetNeeds, GetShape, GetStr, GetU64,
    ShapeFits;
    var profileId :- r.U64();
    var profileGeneration :- r.U64();
    var engineId :- r.U64();
    var engineGeneration :- r.U64();
    var name :- r.Str();
    var role :- r.Code(7);
    var shape :- ReadShape(r);
    var needs :- ReadNeeds(r);
    var profileRequired :- r.Bool();
    var policyGeneration :- r.U64();
    var dependencyGeneration :- r.U64();
    var requirements :- ReadRequirements(r);
    var compatibility :- ReadCompatibility(r);
    return Some(ReadinessProfile(profileId, profileGeneration, engineId, engineGeneration, name,
    ServingRole.ALL[role], shape, needs, profileRequired, policyGeneration, dependencyGeneration, requirements,
    compatibility));
  }

  method ReadIncarnation(r: Reader) returns (res: Option<Incarnation>)
    modifies r`pos
    requires r.Valid()
    ensures r.Valid() && r.Took(GetIncarnation(old(r.Rest())), res)
  {
    hide GetBool, GetCode, GetDevice, GetProcess, GetStateSet, GetStr, GetU64, ProcessFits;
    var incarnationId :- r.U64();
    var incarnationGeneration :- r.U64();
    var engineId :- r.U64();
    var engineGeneration :- r.U64();
    var configGeneration :- r.U64();
    var workerId :- r.U64();
    var workerBoot :- r.U64();
    var sourceId :- r.U64();
    var sourceBoot :- r.U64();
    var coordinatorEpoch :- r.U64();
    var authorityGeneration :- r.U64();
    var registrationPermit :- r.U64();
    var device :- ReadDevice(r);
    var process :- ReadProcess(r);
    var registration :- r.Code(4);
    var state :- ReadStateSet(r);
    var readinessGeneration :- r.U64();
    var isCurrent :- r.Bool();
    var lastActivityNs :- r.U64();
    var nfc :- r.Str();
    return Some(Incarnation(incarnationId, incarnationGeneration, engineId, engineGeneration, configGeneration,
    workerId, workerBoot, sourceId, sourceBoot, coordinatorEpoch, authorityGeneration, registrationPermit,
    device, process, RegistrationState.ALL[registration], state, readinessGeneration, isCurrent,
    lastActivityNs, nfc));
  }

  method ReadReplacement(r: Reader) returns (res: Option<ReplacementPlan>)
    modifies r`pos
    requires r.Valid()
    ensures r.Valid() && r.Took(GetReplacement(old(r.Rest())), res)
  {
    hide GetBool, GetCode, GetStr, GetU64;
    var replacementId :- r.U64();
    var replacementGeneration :- r.U64();
    var engineId :- r.U64();
    var engineGeneration :- r.U64();
    var oldIncarnation :- r.U64();
    var oldIncarnationGeneration :- r.U64();
    var candidateIncarnation :- r.U64();
    var candidateIncarnationGeneration :- r.U64();
    var epoch :- r.U64();
    var authority :- r.U64();
    var phase :- r.Code(6);
    var makeBeforeBreak :- r.Bool();
    var rollbackRequired :- r.Bool();
    var detail :- r.Str();
    var overlapBytes :- r.U64();
    var overlapAvailable :- r.Bool();
    return Some(ReplacementPlan(replacementId, replacementGeneration, engineId, engineGeneration,
    oldIncarnation, oldIncarnationGeneration, candidateIncarnation, candidateIncarnationGeneration, epoch,
    authority, ReplacementPhase.ALL[phase], makeBeforeBreak, rollbackRequired, detail, overlapBytes,
    overlapAvailable));
  }

  method ReadCost(r: Reader) returns (res: Option<CostComponent>)
    modifies r`pos
    requires r.Valid()
    ensures r.Valid() && r.Took(GetCost(old(r.Rest())), res)
  {
    hide GetCode, GetStr, GetU64;
    var name :- r.Str();
    var estimatedNs :- r.U64();
    var measuredNs :- r.U64();
    var provenance :- r.Code(6);
    var size :- r.U64();
    var unit :- r.Str();
    return Some(CostComponent(name, estimatedNs, measuredNs, Provenance.ALL[provenance], size, unit));
  }

  /** A list parse continued from elements already read. */
  ghost function After<T>(xs: seq<T>, p: Parsed<seq<T>>): Parsed<seq<T>>
  {
    match p
    case None => None
    case Some(pair) => Some((xs + pair.0, pair.1))
  }

  lemma AfterNothing<T>(p: Parsed<seq<T>>)
    ensures After([], p) == p
  {
    if p.Some? {
      assert [] + p.value.0 == p.value.0;
    }
  }

  lemma AfterOneMore<T>(xs: seq<T>, x: T, p: Parsed<seq<T>>)
    ensures After(xs, After([x], p)) == After(xs + [x], p)
  {
    if p.Some? {
      assert xs + ([x] + p.value.0) == xs + [x] + p.value.0;
    }
  }

  method ReadStrs(r: Reader) returns (res: Option<seq<bytes>>)
    modifies r`pos
    requires r.Valid()
    ensures r.Valid() && r.Took(GetList(GetStr, old(r.Rest())), res)
  {
    hide GetU32, GetStr;
    var n :- r.U32();
    if n > MAX_COUNT {
      return None;
    }
    ghost var start := r.Rest();
    var xs := [];
    AfterNothing(GetAll(GetStr, n, start));
    for i := 0 to n
      invariant r.Valid()
      invariant GetAll(GetStr, n, start) == After(xs, GetAll(GetStr, n - i, r.Rest()))
    {
      var x :- r.Str();
      AfterOneMore(xs, x, GetAll(GetStr, n - i - 1, r.Rest()));
      xs := xs + [x];
    }
    assert xs + [] == xs;
    return Some(xs);
  }

  method ReadU64s(r: Reader) returns (res: Option<seq<u64>>)
    modifies r`pos
    requires r.Valid()
    ensures r.Valid() && r.Took(GetList(GetU64, old(r.Rest())), res)
  {
    hide GetU32, GetU64;
    var n :- r.U32();
    if n > MAX_COUNT {
      return None;
    }
    ghost var start := r.Rest();
    var xs := [];
    AfterNothing(GetAll(GetU64, n, start));
    for i := 0 to n
      invariant r.Valid()
      invariant GetAll(GetU64, n, start) == After(xs, GetAll(GetU64, n - i, r.Rest()))
    {
      var x :- r.U64();
      AfterOneMore(xs, x, GetAll(GetU64, n - i - 1, r.Rest()));
      xs := xs + [x];
    }
    assert xs + [] == xs;
    return Some(xs);
  }

  method ReadRequirements(r: Reader) returns (res: Option<seq<ProfileRequirement>>)
    modifies r`pos
    requires r.Valid()
    ensures r.Valid() && r.Took(GetList(GetRequirement, old(r.Rest())), res)
  {
    hide GetU32, GetRequirement;
    var n :- r.U32();
    if n > MAX_COUNT {
      return None;
    }
    ghost var start := r.Rest();
    var xs := [];
    AfterNothing(GetAll(GetRequirement, n, start));
    for i := 0 to n
      invariant r.Valid()
      invariant GetAll(GetRequirement, n, start) == After(xs, GetAll(GetRequirement, n - i, r.Rest()))
    {
      var x :- ReadRequirement(r);
      AfterOneMore(xs, x, GetAll(GetRequirement, n - i - 1, r.Rest()));
      xs := xs + [x];
    }
    assert xs + [] == xs;
    return Some(xs);
  }

  method ReadEngines(r: Reader) returns (res: Option<seq<EngineDefinition>>)
    modifies r`pos
    requires r.Valid()
    ensures r.Valid() && r.Took(GetList(GetEngine, old(r.Rest())), res)
  {
    hide GetU32, GetEngine;
    var n :- r.U32();
    if n > MAX_COUNT {
      return None;
    }
    ghost var start := r.Rest();
    var xs := [];
    AfterNothing(GetAll(GetEngine, n, start));
    for i := 0 to n
      invariant r.Valid()
      invariant GetAll(GetEngine, n, start) == After(xs, GetAll(GetEngine, n - i, r.Rest()))
    {
      var x :- ReadEngine(r);
      AfterOneMore(xs, x, GetAll(GetEngine, n - i - 1, r.Rest()));
      xs := xs + [x];
    }
    assert xs + [] == xs;
    return Some(xs);
  }

  method ReadProfiles(r: Reader) returns (res: Option<seq<ReadinessProfile>>)
    modifies r`pos
    requires r.Valid()
    ensures r.Valid() && r.Took(GetList(GetProfile, old(r.Rest())), res)
  {
    hide GetU32, GetProfile;
    var n :- r.U32();
    if n > MAX_COUNT {
      return None;
    }
    ghost var start := r.Rest();
    var xs := [];
    AfterNothing(GetAll(GetProfile, n, start));
    for i := 0 to n
      invariant r.Valid()
      invariant GetAll(GetProfile, n, start) == After(xs, GetAll(GetProfile, n - i, r.Rest()))
    {
      var x :- ReadProfile(r);
      AfterOneMore(xs, x, GetAll(GetProfile, n - i - 1, r.Rest()));
      xs := xs + [x];
    }
    assert xs + [] == xs;
    return Some(xs);
  }

  method ReadIncarnations(r: Reader) returns (res: Option<seq<Incarnation>>)
    modifies r`pos
    requires r.Valid()
    ensures r.Valid() && r.Took(GetList(GetIncarnation, old(r.Rest())), res)
  {
    hide GetU32, GetIncarnation;
    var n :- r.U32();
    if n > MAX_COUNT {
      return None;
    }
    ghost var start := r.Rest();
    var xs := [];
    AfterNothing(GetAll(GetIncarnation, n, start));
    for i := 0 to n
      invariant r.Valid()
      invariant GetAll(GetIncarnation, n, start) == After(xs, GetAll(GetIncarnation, n - i, r.Rest()))
    {
      var x :- ReadIncarnation(r);
      AfterOneMore(xs, x, GetAll(GetIncarnation, n - i - 1, r.Rest()));
      xs := xs + [x];
    }
    assert xs + [] == xs;
    return Some(xs);
  }

  method ReadEvidences(r: Reader) returns (res: Option<seq<Evidence>>)
    modifies r`pos
    requires r.Valid()
    ensures r.Valid() && r.Took(GetList(GetEvidence, old(r.Rest())), res)
  {
    hide GetU32, GetEvidence;
    var n :- r.U32();
    if n > MAX_COUNT {
      return None;
    }
    ghost var start := r.Rest();
    var xs := [];
    AfterNothing(GetAll(GetEvidence, n, start));
    for i := 0 to n
      invariant r.Valid()
      invariant GetAll(GetEvidence, n, start) == After(xs, GetAll(GetEvidence, n - i, r.Rest()))
    {
      var x :- ReadEvidence(r);
      AfterOneMore(xs, x, GetAll(GetEvidence, n - i - 1, r.Rest()));
      xs := xs + [x];
    }
    assert xs + [] == xs;
    return Some(xs);
  }

  method ReadReplacements(r: Reader) returns (res: Option<seq<ReplacementPlan>>)
    modifies r`pos
    requires r.Valid()
    ensures r.Valid() && r.Took(GetList(GetReplacement, old(r.Rest())), res)
  {
    hide GetU32, GetReplacement;
    var n :- r.U32();
    if n > MAX_COUNT {
      return None;
    }
    ghost var start := r.Rest();
    var xs := [];
    AfterNothing(GetAll(GetReplacement, n, start));
    for i := 0 to n
      invariant r.Valid()
      invariant GetAll(GetReplacement, n, start) == After(xs, GetAll(GetReplacement, n - i, r.Rest()))
    {
      var x :- ReadReplacement(r);
      AfterOneMore(xs, x, GetAll(GetReplacement, n - i - 1, r.Rest()));
      xs := xs + [x];
    }
    assert xs + [] == xs;
    return Some(xs);
  }

  method ReadCosts(r: Reader) returns (res: Option<seq<CostComponent>>)
    modifies r`pos
    requires r.Valid()
    ensures r.Valid() && r.Took(GetList(GetCost, old(r.Rest())), res)
  {
    hide GetU32, GetCost;
    var n :- r.U32();
    if n > MAX_COUNT {
      return None;
    }
    ghost var start := r.Rest();
    var xs := [];
    AfterNothing(GetAll(GetCost, n, start));
    for i := 0 to n
      invariant r.Valid()
      invariant GetAll(GetCost, n, start) == After(xs, GetAll(GetCost, n - i, r.Rest()))
    {
      var x :- ReadCost(r);
      AfterOneMore(xs, x, GetAll(GetCost, n - i - 1, r.Rest()));
      xs := xs + [x];
    }
    assert xs + [] == xs;
    return Some(xs);
  }

}
