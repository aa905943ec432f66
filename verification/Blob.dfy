/** The saved blob of persistence.cpp:283-327: magic, version, counters, six record lists and a
    trailing FNV-1a checksum. */
module Blob {
  import opened Prelude
  import opened Errors
  import opened Records
  import opened Wire
  import opened RecordCodec
  import opened Persistence
  import opened Fnv

  const MAGIC: u32 := 0x45524553
  const VERSION: u32 := 2
  const MAX_BYTES: nat := 256 * 1024 * 1024

  /** What load reports; the record-by-record diagnostic texts are one case here. */
  datatype BlobError = TooShort | Oversized | ChecksumMismatch | BadMagic | UnsupportedVersion | Malformed
    | TrailingGarbage

  datatype Loaded = Accepted(state: PersistentState) | Refused(error: BlobError)

  /** What the writer accepts: every string within MAX_STR. */
  predicate Writable(s: PersistentState)
  {
    && (forall x :: x in s.engines ==> EngineWritable(x))
    && (forall x :: x in s.profiles ==> ProfileWritable(x))
    && (forall x :: x in s.incarnations ==> IncarnationFits(x))
    && (forall x :: x in s.evidence ==> EvidenceFits(x))
    && (forall x :: x in s.replacements ==> ReplacementFits(x))
    && (forall x :: x in s.costHistory ==> CostFits(x))
  }

  /** The list lengths that the writer does not check and the reader does. */
  predicate CountsFit(s: PersistentState)
  {
    && (forall x :: x in s.engines ==> EngineFits(x))
    && (forall x :: x in s.profiles ==> ProfileFits(x))
    && |s.engines| <= MAX_COUNT && |s.profiles| <= MAX_COUNT && |s.incarnations| <= MAX_COUNT
    && |s.evidence| <= MAX_COUNT && |s.replacements| <= MAX_COUNT && |s.costHistory| <= MAX_COUNT
  }

  function PutState(s: PersistentState, rest: bytes): bytes
  {
    PutU64(s.coordinatorEpoch, PutU64(s.authorityGeneration, PutU64(s.registrationCounter,
    PutList(PutEngine, s.engines, PutList(PutProfile, s.profiles, PutList(PutIncarnation, s.incarnations,
    PutList(PutEvidence, s.evidence, PutList(PutReplacement, s.replacements,
    PutList(PutCost, s.costHistory, rest)))))))))
  }

  function GetDefinitions(r: bytes): (p: Parsed<(seq<EngineDefinition>, seq<ReadinessProfile>)>)
    ensures p.Some? ==> |p.value.0.0| <= MAX_COUNT && forall x :: x in p.value.0.0 ==> EngineFits(x)
    ensures p.Some? ==> |p.value.0.1| <= MAX_COUNT && forall x :: x in p.value.0.1 ==> ProfileFits(x)
  {
    EngineListLaws();
    ProfileListLaws();
    var (engines, r) :- GetList(GetEngine, r);
    var (profiles, r) :- GetList(GetProfile, r);
    Some(((engines, profiles), r))
  }

  function GetState(r: bytes): (p: Parsed<PersistentState>)
    ensures p.Some? ==> Writable(p.value.0) && CountsFit(p.value.0)
  {
    IncarnationListLaws();
    EvidenceListLaws();
    ReplacementListLaws();
    CostListLaws();
    var (epoch, r) :- GetU64(r);
    var (authority, r) :- GetU64(r);
    var (counter, r) :- GetU64(r);
    var ((engines, profiles), r) :- GetDefinitions(r);
    var (incarnations, r) :- GetList(GetIncarnation, r);
    var (evidence, r) :- GetList(GetEvidence, r);
    var (replacements, r) :- GetList(GetReplacement, r);
    var (costs, r) :- GetList(GetCost, r);
    Some((PersistentState(epoch, authority, counter, engines, profiles, incarnations, evidence, replacements,
      costs), r))
  }

  function Body(s: PersistentState): bytes
  {
    PutU32(MAGIC, PutU32(VERSION, PutState(s, [])))
  }

  function ParseBody(body: bytes): Loaded
  {
    match GetU32(body)
    case None => Refused(BadMagic)
    case Some((magic, afterMagic)) =>
      if magic != MAGIC then Refused(BadMagic) else
      match GetU32(afterMagic)
      case None => Refused(UnsupportedVersion)
      case Some((version, records)) =>
        if version != VERSION then Refused(UnsupportedVersion) else
        match GetState(records)
        case None => Refused(Malformed)
        case Some((s, rest)) => if rest == [] then Accepted(s) else Refused(TrailingGarbage)
  }

  function Checksum(body: bytes): (c: u64)
  {
    Constants();
    HashFromBounded(FNV64, FNV64.offset, body);
    Hash(FNV64, body)
  }

  function Encode(s: PersistentState): bytes
  {
    Body(s) + Le(Checksum(Body(s)), 8)
  }

  function Decode(blob: bytes): Loaded
  {
    if |blob| < 16 then Refused(TooShort)
    else if |blob| > MAX_BYTES then Refused(Oversized)
    else
      var body := blob[..|blob| - 8];
      if Checksum(body) != FromLe(blob[|blob| - 8..]) then Refused(ChecksumMismatch) else ParseBody(body)
  }

  /* ---- the two routines ---- */

  method SerializePersistentState(s: PersistentState) returns (blob: Option<bytes>)
    ensures blob.Some? <==> Writable(s)
    ensures blob.Some? ==> blob.value == Encode(s)
  {
    var w := new Writer();
    w.U32(MAGIC);
    w.U32(VERSION);
    var o := WriteState(w, s);
    if o.Fail? {
      return None;
    }
    var body := w.buf;
    assert body + [] == body && [] + Body(s) == Body(s);
    assert body == Body(s) by {
      hide PutU32, PutState;
      assert body + [] == [] + Body(s);
    }
    var chk := Fnv1a(body);
    w.Digits(chk, 8);
    return Some(w.buf);
  }

  method WriteState(w: Writer, s: PersistentState) returns (o: Outcome<ErrorCode>)
    modifies w
    ensures o.Pass? <==> Writable(s)
    ensures o.Pass? ==> forall rest :: w.buf + rest == old(w.buf) + PutState(s, rest)
  {
    hide PutU64, PutList, EngineWritable, ProfileWritable, IncarnationFits, EvidenceFits, ReplacementFits, CostFits;
    w.U64(s.coordinatorEpoch);
    w.U64(s.authorityGeneration);
    w.U64(s.registrationCounter);
    :- WriteEngines(w, s.engines);
    :- WriteProfiles(w, s.profiles);
    :- WriteIncarnations(w, s.incarnations);
    :- WriteEvidences(w, s.evidence);
    :- WriteReplacements(w, s.replacements);
    :- WriteCosts(w, s.costHistory);
    return Pass;
  }

  method DeserializePersistentState(blob: bytes) returns (res: Loaded)
    ensures res == Decode(blob)
  {
    if |blob| < 16 {
      return Refused(TooShort);
    }
    if |blob| > MAX_BYTES {
      return Refused(Oversized);
    }
    var tail := new Reader(blob[|blob| - 8..]);
    var chk := tail.Digits(8);
    var body := blob[..|blob| - 8];
    var actual := Fnv1a(body);
    assert tail.data[0..8] == blob[|blob| - 8..];
    if actual != chk {
      return Refused(ChecksumMismatch);
    }
    res := ReadBody(body);
  }

  method ReadBody(body: bytes) returns (res: Loaded)
    ensures res == ParseBody(body)
  {
    var r := new Reader(body);
    assert r.Rest() == body;
    var magic := r.U32();
    if magic.None? || magic.value != MAGIC {
      return Refused(BadMagic);
    }
    var version := r.U32();
    if version.None? || version.value != VERSION {
      return Refused(UnsupportedVersion);
    }
    var s := ReadState(r);
    if s.None? {
      return Refused(Malformed);
    }
    if r.pos != |body| {
      return Refused(TrailingGarbage);
    }
    return Accepted(s.value);
  }

  method ReadState(r: Reader) returns (res: Option<PersistentState>)
    modifies r`pos
    requires r.Valid()
    ensures r.Valid() && r.Took(GetState(old(r.Rest())), res)
  {
    hide GetU64, GetList;
    var epoch :- r.U64();
    var authority :- r.U64();
    var counter :- r.U64();
    var engines :- ReadEngines(r);
    var profiles :- ReadProfiles(r);
    var incarnations :- ReadIncarnations(r);
    var evidence :- ReadEvidences(r);
    var replacements :- ReadReplacements(r);
    var costs :- ReadCosts(r);
    return Some(PersistentState(epoch, authority, counter, engines, profiles, incarnations, evidence, replacements,
      costs));
  }

  /* ---- what the format promises ---- */

  lemma StateLaws()
    ensures forall s, rest {:trigger PutState(s, rest)} ::
              Writable(s) && CountsFit(s) ==> GetState(PutState(s, rest)) == Some((s, rest))
    ensures forall r, t {:trigger GetState(r + t)} :: GetState(r).Some? ==>
              GetState(r + t) == Some((GetState(r).value.0, GetState(r).value.1 + t))
  {
    PrimitiveLaws();
    EngineListLaws();
    ProfileListLaws();
    IncarnationListLaws();
    EvidenceListLaws();
    ReplacementListLaws();
    CostListLaws();
    hide GetU64, PutU64, GetList, PutList;
  }

  /** What the whole of a body parses to, given what its records parse to. */
  lemma BodyParse(s: PersistentState)
    ensures ParseBody(Body(s)) == match GetState(PutState(s, []))
                                  case None => Refused(Malformed)
                                  case Some((t, rest)) => if rest == [] then Accepted(t) else Refused(TrailingGarbage)
  {
    hide PutState, GetState, PutU32, GetU32;
  }

  lemma StartBytes()
    ensures Le(MAGIC, 4) == [0x53, 0x45, 0x52, 0x45] && Le(VERSION, 4) == [2, 0, 0, 0]
  {
    assert Le(MAGIC, 4) == [0x53] + Le(0x455245, 3) && Le(0x455245, 3) == [0x45] + Le(0x4552, 2);
    assert Le(0x4552, 2) == [0x52] + Le(0x45, 1) && Le(0x45, 1) == [0x45] + Le(0, 0);
    assert Le(VERSION, 4) == [2] + Le(0, 3) && Le(0, 3) == [0] + Le(0, 2) && Le(0, 2) == [0] + Le(0, 1);
  }

  /** How a body starts: "SERE", the version, the two counters of the authority, the registration counter and the
      number of engines, each little-endian. */
  lemma HeaderLayout(s: PersistentState)
    ensures exists rest :: Body(s) == [0x53, 0x45, 0x52, 0x45] + [2, 0, 0, 0] + Le(s.coordinatorEpoch, 8)
              + Le(s.authorityGeneration, 8) + Le(s.registrationCounter, 8) + Le(|s.engines| % TWO32, 4) + rest
  {
    StartBytes();
    hide Le, PutAll;
    var lists := PutList(PutProfile, s.profiles, PutList(PutIncarnation, s.incarnations, PutList(PutEvidence,
      s.evidence, PutList(PutReplacement, s.replacements, PutList(PutCost, s.costHistory, [])))));
    var rest := PutAll(PutEngine, s.engines, lists);
    assert Body(s) == Le(MAGIC, 4) + Le(VERSION, 4) + Le(s.coordinatorEpoch, 8)
      + Le(s.authorityGeneration, 8) + Le(s.registrationCounter, 8) + Le(|s.engines| % TWO32, 4) + rest;
  }

  lemma BlobParts(s: PersistentState)
    ensures |Encode(s)| >= 16 && Encode(s)[..|Encode(s)| - 8] == Body(s)
    ensures FromLe(Encode(s)[|Encode(s)| - 8..]) == Checksum(Body(s))
  {
    hide PutState, Checksum;
    Widths();
    LeRoundTrip(Checksum(Body(s)), 8);
    assert |Body(s)| >= 8;
    assert Encode(s)[|Body(s)|..] == Le(Checksum(Body(s)), 8);
  }

  /** Saving and loading is the identity exactly when the unchecked limits hold. */
  lemma RoundTrip(s: PersistentState)
    requires Writable(s)
    ensures Decode(Encode(s)) == Accepted(s) <==> CountsFit(s) && |Encode(s)| <= MAX_BYTES
  {
    BlobParts(s);
    BodyParse(s);
    StateLaws();
    hide PutState, GetState, Body, Encode, Checksum, ParseBody;
  }

  lemma ExtendedBody(p: bytes, t: bytes)
    requires ParseBody(p).Accepted? && t != []
    ensures ParseBody(p + t) == Refused(TrailingGarbage)
  {
    hide GetState, GetU32;
    U32Local(p, t);
    var afterMagic := GetU32(p).value.1;
    U32Local(afterMagic, t);
    StateLaws();
    var records := GetU32(afterMagic).value.1;
    assert GetState(records + t) == Some((GetState(records).value.0, [] + t));
  }

  /** Cutting anything off the end of a body that parses makes it unparsable. */
  lemma NoStrictPrefix(body: bytes, n: nat)
    requires ParseBody(body).Accepted? && n < |body|
    ensures ParseBody(body[..n]).Refused?
  {
    hide ParseBody;
    assert body[..n] + body[n..] == body;
    if ParseBody(body[..n]).Accepted? {
      ExtendedBody(body[..n], body[n..]);
    }
  }

  /** A blob whose stored checksum is right, such as every blob that loads. */
  predicate Sealed(blob: bytes)
  {
    && 16 <= |blob| <= MAX_BYTES
    && Checksum(blob[..|blob| - 8]) == FromLe(blob[|blob| - 8..])
  }

  /** Replacing any one byte of a sealed blob, body or checksum, makes load refuse it. */
  lemma SubstitutionRefused(blob: bytes, other: bytes, i: nat)
    requires Sealed(blob) && Substituted(blob, other, i)
    ensures Decode(other) == Refused(ChecksumMismatch)
  {
    var n := |blob| - 8;
    if i < n {
      assert blob[n..] == other[n..];
      Constants();
      HashSeesSubstitution(FNV64, blob[..n], other[..n], i);
    } else {
      assert blob[..n] == other[..n];
      assert blob[n..][i - n] != other[n..][i - n];
      if FromLe(blob[n..]) == FromLe(other[n..]) {
        FromLeInjective(blob[n..], other[n..]);
      }
    }
  }

  /** Every blob that load accepts is sealed, and what it yields respects every limit. */
  lemma AcceptedIsSound(blob: bytes)
    requires Decode(blob).Accepted?
    ensures Sealed(blob)
    ensures Writable(Decode(blob).state) && CountsFit(Decode(blob).state)
  {
    hide GetState;
  }
}
