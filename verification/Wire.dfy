/** The primitive layer of persistence.cpp. `PutX(v, rest)` is the wire form of v followed by
    `rest`; `GetX(r)` splits r into a value and what follows, or fails. The classes Writer and
    Reader are the source's, proved against these two families of functions. */
module Wire {
  import opened Prelude
  import opened Errors

  const MAX_COUNT: nat := 1_000_000
  const MAX_STR: nat := 1_000_000

  type Parsed<+T> = Option<(T, bytes)>

  function Le(v: nat, n: nat): (b: bytes)
    ensures |b| == n
    decreases n
  {
    if n == 0 then [] else [v % 256] + Le(v / 256, n - 1)
  }

  function FromLe(b: bytes): nat
  {
    if b == [] then 0 else b[0] + 256 * FromLe(b[1..])
  }

  function Pow256(n: nat): (p: nat)
    ensures p > 0
  {
    if n == 0 then 1 else 256 * Pow256(n - 1)
  }

  lemma {:induction false} LeRoundTrip(v: nat, n: nat)
    requires v < Pow256(n)
    ensures FromLe(Le(v, n)) == v
    decreases n
  {
    if n > 0 {
      LeRoundTrip(v / 256, n - 1);
      assert Le(v, n)[1..] == Le(v / 256, n - 1);
    }
  }

  lemma {:induction false} FromLeBounded(b: bytes)
    ensures FromLe(b) < Pow256(|b|)
  {
    if b != [] {
      FromLeBounded(b[1..]);
    }
  }

  lemma {:induction false} FromLeAppend(b: bytes, d: byte)
    ensures FromLe(b + [d]) == FromLe(b) + Pow256(|b|) * d
  {
    if b == [] {
      assert b + [d] == [d];
    } else {
      FromLeAppend(b[1..], d);
      assert (b + [d])[1..] == b[1..] + [d];
      assert 256 * (Pow256(|b| - 1) * d) == Pow256(|b|) * d;
    }
  }

  lemma {:induction false} FromLeInjective(a: bytes, b: bytes)
    requires |a| == |b| && FromLe(a) == FromLe(b)
    ensures a == b
  {
    if a != [] {
      FromLeInjective(a[1..], b[1..]);
      assert a == [a[0]] + a[1..] && b == [b[0]] + b[1..];
    }
  }

  lemma Widths()
    ensures Pow256(4) == TWO32 && Pow256(8) == TWO64
  {
    assert Pow256(2) == 65536 && Pow256(4) == 65536 * 65536;
    assert Pow256(6) == 65536 * Pow256(4) && Pow256(8) == 65536 * Pow256(6);
  }

  /* ---- primitives ---- */

  function PutU8(v: byte, rest: bytes): (out: bytes)
    ensures GetU8(out) == Some((v, rest))
  {
    [v] + rest
  }

  function GetU8(r: bytes): Parsed<byte>
  {
    if |r| < 1 then None else Some((r[0], r[1..]))
  }

  function PutU32(v: u32, rest: bytes): (out: bytes)
    ensures GetU32(out) == Some((v, rest))
  {
    Widths();
    LeRoundTrip(v, 4);
    Le(v, 4) + rest
  }

  function GetU32(r: bytes): Parsed<u32>
  {
    if |r| < 4 then None
    else
      Widths();
      FromLeBounded(r[..4]);
      Some((FromLe(r[..4]), r[4..]))
  }

  function PutU64(v: u64, rest: bytes): (out: bytes)
    ensures GetU64(out) == Some((v, rest))
  {
    Widths();
    LeRoundTrip(v, 8);
    Le(v, 8) + rest
  }

  function GetU64(r: bytes): Parsed<u64>
  {
    if |r| < 8 then None
    else
      Widths();
      FromLeBounded(r[..8]);
      Some((FromLe(r[..8]), r[8..]))
  }

  function PutBool(b: bool, rest: bytes): (out: bytes)
    ensures GetBool(out) == Some((b, rest))
  {
    PutU8(if b then 1 else 0, rest)
  }

  /** Any non-zero byte reads as true. */
  function GetBool(r: bytes): Parsed<bool>
  {
    var (b, r) :- GetU8(r);
    Some((b != 0, r))
  }

  /** The length is cast to 32 bits; the writer refuses strings over MAX_STR beforehand. */
  function PutStr(s: bytes, rest: bytes): (out: bytes)
    ensures |s| <= MAX_STR ==> GetStr(out) == Some((s, rest))
  {
    PutU32(|s| % TWO32, s + rest)
  }

  function GetStr(r: bytes): (p: Parsed<bytes>)
    ensures p.Some? ==> |p.value.0| <= MAX_STR
  {
    var (n, r) :- GetU32(r);
    if n > MAX_STR || |r| < n then None else Some((r[..n], r[n..]))
  }

  /** r_enum: an integer code no larger than the last enumerator. */
  function GetCode(max: u32, r: bytes): (p: Parsed<u32>)
    ensures p.Some? ==> p.value.0 <= max
  {
    var (c, r) :- GetU32(r);
    if c > max then None else Some((c, r))
  }

  /* ---- lists ---- */

  function PutAll<T>(put: (T, bytes) -> bytes, xs: seq<T>, rest: bytes): bytes
  {
    if xs == [] then rest else put(xs[0], PutAll(put, xs[1..], rest))
  }

  function GetAll<T>(get: bytes -> Parsed<T>, n: nat, r: bytes): Parsed<seq<T>>
    decreases n
  {
    if n == 0 then Some(([], r))
    else
      var (x, r) :- get(r);
      var (xs, r) :- GetAll(get, n - 1, r);
      Some(([x] + xs, r))
  }

  /** The count is cast to 32 bits without a check. */
  function PutList<T>(put: (T, bytes) -> bytes, xs: seq<T>, rest: bytes): bytes
  {
    PutU32(|xs| % TWO32, PutAll(put, xs, rest))
  }

  function GetList<T>(get: bytes -> Parsed<T>, r: bytes): Parsed<seq<T>>
  {
    var (n, r) :- GetU32(r);
    if n > MAX_COUNT then None else GetAll(get, n, r)
  }

  /* ---- the three laws of a codec ---- */

  /** Reading what was written gives back the value and leaves what follows. */
  ghost predicate RoundTrips<T(!new)>(put: (T, bytes) -> bytes, get: bytes -> Parsed<T>, fits: T -> bool)
  {
    forall x, rest :: fits(x) ==> get(put(x, rest)) == Some((x, rest))
  }

  /** A successful read does not look past what it consumed. */
  ghost predicate Local<T(!new)>(get: bytes -> Parsed<T>)
  {
    forall r, t :: get(r).Some? ==> get(r + t) == Some((get(r).value.0, get(r).value.1 + t))
  }

  /** Whatever is read respects the limits. */
  ghost predicate Bounded<T(!new)>(get: bytes -> Parsed<T>, fits: T -> bool)
  {
    forall r :: get(r).Some? ==> fits(get(r).value.0)
  }

  lemma SplitLocal(r: bytes, t: bytes, n: nat)
    requires n <= |r|
    ensures (r + t)[..n] == r[..n] && (r + t)[n..] == r[n..] + t
  {
  }

  lemma U8Local(r: bytes, t: bytes)
    requires GetU8(r).Some?
    ensures GetU8(r + t) == Some((GetU8(r).value.0, GetU8(r).value.1 + t))
  {
    SplitLocal(r, t, 1);
  }

  lemma U32Local(r: bytes, t: bytes)
    requires GetU32(r).Some?
    ensures GetU32(r + t) == Some((GetU32(r).value.0, GetU32(r).value.1 + t))
  {
    SplitLocal(r, t, 4);
  }

  lemma U64Local(r: bytes, t: bytes)
    requires GetU64(r).Some?
    ensures GetU64(r + t) == Some((GetU64(r).value.0, GetU64(r).value.1 + t))
  {
    SplitLocal(r, t, 8);
  }

  lemma BoolLocal(r: bytes, t: bytes)
    requires GetBool(r).Some?
    ensures GetBool(r + t) == Some((GetBool(r).value.0, GetBool(r).value.1 + t))
  {
    U8Local(r, t);
  }

  lemma StrLocal(r: bytes, t: bytes)
    requires GetStr(r).Some?
    ensures GetStr(r + t) == Some((GetStr(r).value.0, GetStr(r).value.1 + t))
  {
    U32Local(r, t);
    SplitLocal(GetU32(r).value.1, t, GetU32(r).value.0);
  }

  lemma CodeLocal(max: u32, r: bytes, t: bytes)
    requires GetCode(max, r).Some?
    ensures GetCode(max, r + t) == Some((GetCode(max, r).value.0, GetCode(max, r).value.1 + t))
  {
    U32Local(r, t);
  }

  /** The six lemmas above for all arguments at once, so that a record's chain of reads needs one call. */
  lemma PrimitiveLaws()
    ensures forall r, t {:trigger GetU8(r + t)} :: GetU8(r).Some? ==>
              GetU8(r + t) == Some((GetU8(r).value.0, GetU8(r).value.1 + t))
    ensures forall r, t {:trigger GetU32(r + t)} :: GetU32(r).Some? ==>
              GetU32(r + t) == Some((GetU32(r).value.0, GetU32(r).value.1 + t))
    ensures forall r, t {:trigger GetU64(r + t)} :: GetU64(r).Some? ==>
              GetU64(r + t) == Some((GetU64(r).value.0, GetU64(r).value.1 + t))
    ensures forall r, t {:trigger GetBool(r + t)} :: GetBool(r).Some? ==>
              GetBool(r + t) == Some((GetBool(r).value.0, GetBool(r).value.1 + t))
    ensures forall r, t {:trigger GetStr(r + t)} :: GetStr(r).Some? ==>
              GetStr(r + t) == Some((GetStr(r).value.0, GetStr(r).value.1 + t))
    ensures forall max, r, t {:trigger GetCode(max, r + t)} :: GetCode(max, r).Some? ==>
              GetCode(max, r + t) == Some((GetCode(max, r).value.0, GetCode(max, r).value.1 + t))
    ensures forall max, v, rest {:trigger GetCode(max, PutU32(v, rest))} :: v <= max ==>
              GetCode(max, PutU32(v, rest)) == Some((v, rest))
  {
    forall r, t | GetU8(r).Some?
      ensures GetU8(r + t) == Some((GetU8(r).value.0, GetU8(r).value.1 + t))
    {
      U8Local(r, t);
    }
    forall r, t | GetU32(r).Some?
      ensures GetU32(r + t) == Some((GetU32(r).value.0, GetU32(r).value.1 + t))
    {
      U32Local(r, t);
    }
    forall r, t | GetU64(r).Some?
      ensures GetU64(r + t) == Some((GetU64(r).value.0, GetU64(r).value.1 + t))
    {
      U64Local(r, t);
    }
    forall r, t | GetBool(r).Some?
      ensures GetBool(r + t) == Some((GetBool(r).value.0, GetBool(r).value.1 + t))
    {
      BoolLocal(r, t);
    }
    forall r, t | GetStr(r).Some?
      ensures GetStr(r + t) == Some((GetStr(r).value.0, GetStr(r).value.1 + t))
    {
      StrLocal(r, t);
    }
    forall max, r, t | GetCode(max, r).Some?
      ensures GetCode(max, r + t) == Some((GetCode(max, r).value.0, GetCode(max, r).value.1 + t))
    {
      CodeLocal(max, r, t);
    }
  }

  lemma {:induction false} AllRoundTrip<T(!new)>(put: (T, bytes) -> bytes, get: bytes -> Parsed<T>, fits: T -> bool,
      xs: seq<T>, rest: bytes)
    requires RoundTrips(put, get, fits) && forall x :: x in xs ==> fits(x)
    ensures GetAll(get, |xs|, PutAll(put, xs, rest)) == Some((xs, rest))
  {
    if xs != [] {
      AllRoundTrip(put, get, fits, xs[1..], rest);
      assert xs == [xs[0]] + xs[1..];
    }
  }

  lemma ListRoundTrip<T(!new)>(put: (T, bytes) -> bytes, get: bytes -> Parsed<T>, fits: T -> bool,
      xs: seq<T>, rest: bytes)
    requires RoundTrips(put, get, fits) && |xs| <= MAX_COUNT && forall x :: x in xs ==> fits(x)
    ensures GetList(get, PutList(put, xs, rest)) == Some((xs, rest))
  {
    AllRoundTrip(put, get, fits, xs, rest);
  }

  lemma {:induction false} AllLocal<T(!new)>(get: bytes -> Parsed<T>, n: nat, r: bytes, t: bytes)
    requires Local(get) && GetAll(get, n, r).Some?
    ensures GetAll(get, n, r + t) == Some((GetAll(get, n, r).value.0, GetAll(get, n, r).value.1 + t))
    decreases n
  {
    if n > 0 {
      var (x, q) := get(r).value;
      assert get(r + t) == Some((x, q + t));
      AllLocal(get, n - 1, q, t);
    }
  }

  lemma ListLocal<T(!new)>(get: bytes -> Parsed<T>, r: bytes, t: bytes)
    requires Local(get) && GetList(get, r).Some?
    ensures GetList(get, r + t) == Some((GetList(get, r).value.0, GetList(get, r).value.1 + t))
  {
    U32Local(r, t);
    var (n, q) := GetU32(r).value;
    AllLocal(get, n, q, t);
  }

  lemma {:induction false} AllBounded<T(!new)>(get: bytes -> Parsed<T>, fits: T -> bool, n: nat, r: bytes)
    requires Bounded(get, fits) && GetAll(get, n, r).Some?
    ensures |GetAll(get, n, r).value.0| == n
    ensures forall x :: x in GetAll(get, n, r).value.0 ==> fits(x)
    decreases n
  {
    if n > 0 {
      AllBounded(get, fits, n - 1, get(r).value.1);
    }
  }

  lemma ListBounded<T(!new)>(get: bytes -> Parsed<T>, fits: T -> bool, r: bytes)
    requires Bounded(get, fits) && GetList(get, r).Some?
    ensures |GetList(get, r).value.0| <= MAX_COUNT
    ensures forall x :: x in GetList(get, r).value.0 ==> fits(x)
  {
    AllBounded(get, fits, GetU32(r).value.0, GetU32(r).value.1);
  }

  /** The list forms of a lawful codec obey the same laws, with at most MAX_COUNT elements. */
  ghost predicate ListLaws<T(!new)>(put: (T, bytes) -> bytes, get: bytes -> Parsed<T>, fits: T -> bool)
  {
    && (forall xs, rest {:trigger PutList(put, xs, rest)} ::
          |xs| <= MAX_COUNT && (forall x :: x in xs ==> fits(x)) ==>
            GetList(get, PutList(put, xs, rest)) == Some((xs, rest)))
    && (forall r, t {:trigger GetList(get, r + t)} :: GetList(get, r).Some? ==>
          GetList(get, r + t) == Some((GetList(get, r).value.0, GetList(get, r).value.1 + t)))
    && (forall r {:trigger GetList(get, r)} :: GetList(get, r).Some? ==>
          |GetList(get, r).value.0| <= MAX_COUNT && forall x :: x in GetList(get, r).value.0 ==> fits(x))
  }

  lemma LawfulLists<T(!new)>(put: (T, bytes) -> bytes, get: bytes -> Parsed<T>, fits: T -> bool)
    requires RoundTrips(put, get, fits) && Local(get) && Bounded(get, fits)
    ensures ListLaws(put, get, fits)
  {
    forall xs, rest | |xs| <= MAX_COUNT && forall x :: x in xs ==> fits(x)
      ensures GetList(get, PutList(put, xs, rest)) == Some((xs, rest))
    {
      ListRoundTrip(put, get, fits, xs, rest);
    }
    forall r, t | GetList(get, r).Some?
      ensures GetList(get, r + t) == Some((GetList(get, r).value.0, GetList(get, r).value.1 + t))
    {
      ListLocal(get, r, t);
    }
    forall r | GetList(get, r).Some?
      ensures |GetList(get, r).value.0| <= MAX_COUNT && forall x :: x in GetList(get, r).value.0 ==> fits(x)
    {
      ListBounded(get, fits, r);
    }
  }

  predicate StrFits(s: bytes) { |s| <= MAX_STR }

  predicate AnyU64(v: u64) { true }

  lemma StrListLaws()
    ensures ListLaws(PutStr, GetStr, StrFits)
  {
    PrimitiveLaws();
    hide GetStr, PutStr;
    LawfulLists(PutStr, GetStr, StrFits);
  }

  lemma U64ListLaws()
    ensures ListLaws(PutU64, GetU64, AnyU64)
  {
    PrimitiveLaws();
    hide GetU64, PutU64;
    LawfulLists(PutU64, GetU64, AnyU64);
  }
}
