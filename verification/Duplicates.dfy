/** Records with one identity in a saved blob (persistence.cpp:301-327, runtime.cpp:700-734): the decoder
    accepts them and load keeps the last of them. */
module Duplicates {
  import opened Prelude
  import opened Records
  import opened Wire
  import opened RecordCodec
  import opened RuntimeState
  import opened RuntimeRuns
  import opened Recovery
  import Blob

  /** No two records of the list have one identity. */
  ghost predicate DistinctKeys<T(!new)>(xs: seq<T>, key: T -> u64)
  {
    forall i, j :: 0 <= i < j < |xs| ==> key(xs[i]) != key(xs[j])
  }

  ghost predicate HasKey<T(!new)>(xs: seq<T>, key: T -> u64, k: u64)
  {
    exists x :: x in xs && key(x) == k
  }

  /** The table has an entry for exactly the identities of the list. */
  lemma {:induction false} TableHasKeys<T(!new)>(xs: seq<T>, key: T -> u64, k: u64)
    ensures k in Table(xs, key) <==> HasKey(xs, key, k)
    decreases |xs|
  {
    if xs != [] {
      var n := |xs| - 1;
      TableHasKeys(xs[..n], key, k);
      assert xs == xs[..n] + [xs[n]];
      hide Table;
      OneMoreRecord(xs[..n], xs[n], key, k);
    }
  }

  lemma OneMoreRecord<T(!new)>(ys: seq<T>, x: T, key: T -> u64, k: u64)
    ensures HasKey(ys + [x], key, k) <==> HasKey(ys, key, k) || key(x) == k
  {
    assert x in ys + [x] && forall y :: y in ys ==> y in ys + [x];
  }

  /** Which record stays: under each identity the last one in the list. */
  lemma {:induction false} LastRecordStays<T(!new)>(xs: seq<T>, key: T -> u64, i: nat)
    requires i < |xs| && forall j :: i < j < |xs| ==> key(xs[j]) != key(xs[i])
    ensures key(xs[i]) in Table(xs, key) && Table(xs, key)[key(xs[i])] == xs[i]
    decreases |xs|
  {
    var n := |xs| - 1;
    if i < n {
      var ys := xs[..n];
      assert forall j :: 0 <= j < n ==> ys[j] == xs[j];
      LastRecordStays(ys, key, i);
      assert key(xs[n]) != key(xs[i]);
    }
  }

  /** No record is lost exactly when all identities differ. */
  lemma {:induction false} NoneLost<T(!new)>(xs: seq<T>, key: T -> u64)
    ensures |Table(xs, key)| <= |xs|
    ensures |Table(xs, key)| == |xs| <==> DistinctKeys(xs, key)
    decreases |xs|
  {
    if xs != [] {
      var n := |xs| - 1;
      var ys, last := xs[..n], key(xs[n]);
      NoneLost(ys, key);
      TableHasKeys(ys, key, last);
      OneMoreKey(ys, xs[n], key);
      assert xs == ys + [xs[n]];
      OneMoreEntry(Table(ys, key), last, xs[n]);
      hide DistinctKeys, HasKey;
    }
  }

  lemma OneMoreEntry<T>(m: map<u64, T>, k: u64, v: T)
    ensures |m[k := v]| == |m| + if k in m then 0 else 1
  {
    if k in m {
      assert m[k := v].Keys == m.Keys;
    } else {
      assert m[k := v].Keys == m.Keys + {k};
    }
  }

  lemma OneMoreKey<T(!new)>(ys: seq<T>, x: T, key: T -> u64)
    ensures DistinctKeys(ys + [x], key) <==> DistinctKeys(ys, key) && !HasKey(ys, key, key(x))
  {
    var xs := ys + [x];
    assert xs[|ys|] == x && forall i :: 0 <= i < |ys| ==> xs[i] == ys[i];
  }

  lemma RestoredKeys(xs: seq<Incarnation>)
    ensures DistinctKeys(RestoreAll(xs), IncarnationKey) <==> DistinctKeys(xs, IncarnationKey)
  {
    assert forall i :: 0 <= i < |xs| ==> IncarnationKey(RestoreAll(xs)[i]) == IncarnationKey(xs[i]);
    hide RestoreAll, IncarnationKey;
  }

  /** load keeps every record of a table exactly when no two of them have one identity. */
  lemma DuplicatesAreDropped(s: State, saved: PersistentState)
    ensures var t := Load(s, saved);
            && (|t.engines| == |saved.engines| <==> DistinctKeys(saved.engines, EngineKey))
            && (|t.profiles| == |saved.profiles| <==> DistinctKeys(saved.profiles, ProfileKey))
            && (|t.incarnations| == |saved.incarnations| <==> DistinctKeys(saved.incarnations, IncarnationKey))
            && (|t.replacements| == |saved.replacements| <==> DistinctKeys(saved.replacements, ReplacementKey))
  {
    LoadFields(s, saved);
    RestoredKeys(saved.incarnations);
    assert |RestoreAll(saved.incarnations)| == |saved.incarnations|;
    hide Load, Table, RestoreAll, SameDrains, KeepsFences, DistinctKeys;
    NoneLost(saved.engines, EngineKey);
    NoneLost(saved.profiles, ProfileKey);
    NoneLost(RestoreAll(saved.incarnations), IncarnationKey);
    NoneLost(saved.replacements, ReplacementKey);
  }

  /* ---- a blob with duplicates ---- */

  lemma PutSizes()
    ensures forall v, rest {:trigger PutU32(v, rest)} :: |PutU32(v, rest)| == 4 + |rest|
    ensures forall v, rest {:trigger PutU64(v, rest)} :: |PutU64(v, rest)| == 8 + |rest|
    ensures forall v, rest {:trigger PutBool(v, rest)} :: |PutBool(v, rest)| == 1 + |rest|
    ensures forall v, rest {:trigger PutStr(v, rest)} :: |PutStr(v, rest)| == 4 + |v| + |rest|
  {
  }

  lemma ReplacementSize(v: ReplacementPlan, rest: bytes)
    ensures |PutReplacement(v, rest)| == 99 + |v.detail| + |rest|
  {
    PutSizes();
    hide PutU32, PutU64, PutBool, PutStr;
  }

  lemma CostSize(v: CostComponent, rest: bytes)
    ensures |PutCost(v, rest)| == 36 + |v.name| + |v.unit| + |rest|
  {
    PutSizes();
    hide PutU32, PutU64, PutBool, PutStr;
  }

  /** A saved state that holds two replacement plans and a cost sample. */
  function Pair(a: ReplacementPlan, b: ReplacementPlan, c: CostComponent): PersistentState
  {
    PersistentState(1, 1, 0, [], [], [], [], [a, b], [c])
  }

  lemma ListSizes<T>(put: (T, bytes) -> bytes, x: T, y: T, rest: bytes)
    ensures |PutList(put, [x], rest)| == 4 + |put(x, rest)|
    ensures |PutList(put, [x, y], rest)| == 4 + |put(x, put(y, rest))|
  {
    assert [x, y][1..] == [y] && [y][1..] == [] && [x][1..] == [];
    PutSizes();
    hide PutU32;
    assert PutAll(put, [y], rest) == put(y, rest) && PutAll(put, [x], rest) == put(x, rest);
  }

  lemma NoneSize<T>(put: (T, bytes) -> bytes, rest: bytes)
    ensures |PutList(put, [], rest)| == 4 + |rest|
  {
    PutSizes();
    hide PutU32;
  }

  /** The records of the pair, behind four empty lists and three counters. */
  lemma PairRecords(a: ReplacementPlan, b: ReplacementPlan, c: CostComponent)
    requires ReplacementFits(a) && ReplacementFits(b) && CostFits(c)
    ensures |PutList(PutReplacement, [a, b], PutList(PutCost, [c], []))| <= 10_000_000
  {
    var costs := PutList(PutCost, [c], []);
    ListSizes(PutCost, c, c, []);
    CostSize(c, []);
    ListSizes(PutReplacement, a, b, costs);
    ReplacementSize(a, PutReplacement(b, costs));
    ReplacementSize(b, costs);
    hide PutList, PutReplacement, PutCost;
  }

  lemma PairSize(a: ReplacementPlan, b: ReplacementPlan, c: CostComponent)
    requires ReplacementFits(a) && ReplacementFits(b) && CostFits(c)
    ensures |Blob.Encode(Pair(a, b, c))| <= Blob.MAX_BYTES
  {
    PairRecords(a, b, c);
    hide ReplacementFits, CostFits, PutList, PutReplacement, PutCost, PutIncarnation, PutEngine, PutProfile,
      PutEvidence, PutU64, PutU32, Blob.Checksum;
    var plans := PutList(PutReplacement, [a, b], PutList(PutCost, [c], []));
    NoneSize(PutEvidence, plans);
    var evidence := PutList(PutEvidence, [], plans);
    NoneSize(PutIncarnation, evidence);
    var incarnations := PutList(PutIncarnation, [], evidence);
    NoneSize(PutProfile, incarnations);
    var profiles := PutList(PutProfile, [], incarnations);
    NoneSize(PutEngine, profiles);
    PutSizes();
    assert |Blob.PutState(Pair(a, b, c), [])| == 40 + |plans|;
  }

  /** The decoder looks neither for duplicates nor at the numbers of a cost sample: two plans with one
      identity and any sample are saved and loaded as they are, and then the second plan alone is left. */
  lemma DuplicatesAreAccepted(s: State, a: ReplacementPlan, b: ReplacementPlan, c: CostComponent)
    requires ReplacementFits(a) && ReplacementFits(b) && CostFits(c) && a.replacementId == b.replacementId
    ensures Blob.Decode(Blob.Encode(Pair(a, b, c))) == Blob.Accepted(Pair(a, b, c))
    ensures Load(s, Pair(a, b, c)).replacements == map[b.replacementId := b]
    ensures Load(s, Pair(a, b, c)).costHistory == [c]
  {
    PairSize(a, b, c);
    PairFits(a, b, c);
    LoadFields(s, Pair(a, b, c));
    TableOfTwo(a, b);
    hide Load, Table, RestoreAll, EvidenceTable, Blob.Encode, Blob.Decode, Blob.Writable, Blob.CountsFit;
    Blob.RoundTrip(Pair(a, b, c));
  }

  lemma PairFits(a: ReplacementPlan, b: ReplacementPlan, c: CostComponent)
    requires ReplacementFits(a) && ReplacementFits(b) && CostFits(c)
    ensures Blob.Writable(Pair(a, b, c)) && Blob.CountsFit(Pair(a, b, c))
  {
    hide ReplacementFits, CostFits;
  }

  lemma TableOfTwo(a: ReplacementPlan, b: ReplacementPlan)
    requires a.replacementId == b.replacementId
    ensures Table([a, b], ReplacementKey) == map[b.replacementId := b]
  {
    assert [a, b][..1] == [a] && [a][..0] == [];
    assert Table([a], ReplacementKey) == map[a.replacementId := a];
  }
}
