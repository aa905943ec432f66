/** Message payloads, message.cpp: a map of strings written as `key=value` lines. */
module Payload {
  import opened Prelude

  const EQ: byte := 61  // '='
  const NL: byte := 10  // '\n'

  type Fields = map<bytes, bytes>

  /** The position of the first d in p, or the length of p. */
  function Cut(p: bytes, d: byte): (n: nat)
    ensures n <= |p| && forall i :: 0 <= i < n ==> p[i] != d
    ensures n < |p| ==> p[n] == d
  {
    if p == [] || p[0] == d then 0 else 1 + Cut(p[1..], d)
  }

  /** One line: split at its first '='; a line without one is ignored. */
  function AddLine(line: bytes, out: Fields): Fields
  {
    var eq := Cut(line, EQ);
    if eq == |line| then out else out[line[..eq] := line[eq + 1..]]
  }

  /** What remains after std::getline took a line off p. */
  function AfterLine(p: bytes): (rest: bytes)
    ensures p != [] ==> |rest| < |p|
  {
    var n := Cut(p, NL);
    if n < |p| then p[n + 1..] else []
  }

  function ParseInto(p: bytes, out: Fields): Fields
    decreases |p|
  {
    if p == [] then out else ParseInto(AfterLine(p), AddLine(p[..Cut(p, NL)], out))
  }

  function Parse(p: bytes): Fields
  {
    ParseInto(p, map[])
  }

  function Line(k: bytes, v: bytes): bytes
  {
    k + [EQ] + v
  }

  /** The fields in the order in which `keys` lists them; std::map lists them sorted. */
  function Make(keys: seq<bytes>, f: Fields): bytes
    requires forall k :: k in keys ==> k in f
  {
    if keys == [] then [] else Line(keys[0], f[keys[0]]) + [NL] + Make(keys[1..], f)
  }

  method MakePayload(keys: seq<bytes>, f: Fields) returns (out: bytes)
    requires Enumerates(keys, f.Keys)
    ensures out == Make(keys, f)
  {
    out := [];
    for i := 0 to |keys|
      invariant out + Make(keys[i..], f) == Make(keys, f)
    {
      var was := out;
      out := out + keys[i] + [EQ] + f[keys[i]] + [NL];
      assert out == was + (Line(keys[i], f[keys[i]]) + [NL]);
      assert keys[i..][1..] == keys[i + 1..];
    }
  }

  lemma Unfold(p: bytes, out: Fields)
    ensures ParseInto(p, out) == if p == [] then out else ParseInto(AfterLine(p), AddLine(p[..Cut(p, NL)], out))
  {
    hide AfterLine, AddLine, Cut;
  }

  method ParsePayload(p: bytes) returns (out: Fields)
    ensures out == Parse(p)
  {
    hide ParseInto, Cut;
    out := map[];
    var rest := p;
    while rest != []
      invariant ParseInto(rest, out) == Parse(p)
      decreases |rest|
    {
      var n := FindFirst(rest, NL);
      var line := rest[..n];
      Unfold(rest, out);
      rest := if n < |rest| then rest[n + 1..] else [];
      if line == [] {
        continue;
      }
      var eq := FindFirst(line, EQ);
      if eq == |line| {
        continue;
      }
      out := out[line[..eq] := line[eq + 1..]];
    }
    Unfold([], out);
  }

  lemma CutUnique(p: bytes, d: byte, n: nat)
    requires n <= |p| && (forall i :: 0 <= i < n ==> p[i] != d) && (n < |p| ==> p[n] == d)
    ensures Cut(p, d) == n
  {
  }

  method FindFirst(p: bytes, d: byte) returns (n: nat)
    ensures n == Cut(p, d)
  {
    n := 0;
    while n < |p| && p[n] != d
      invariant n <= |p| && forall i :: 0 <= i < n ==> p[i] != d
    {
      n := n + 1;
    }
    CutUnique(p, d, n);
  }

  /** No separator where the format cannot carry one. */
  ghost predicate Clean(f: Fields)
  {
    forall k :: k in f ==> EQ !in k && NL !in k && NL !in f[k]
  }

  /** Every parsed map is clean, whatever the bytes. */
  lemma {:induction false} ParsedIsClean(p: bytes, out: Fields)
    requires Clean(out)
    ensures Clean(ParseInto(p, out))
    decreases |p|
  {
    if p != [] {
      var line := p[..Cut(p, NL)];
      var eq := Cut(line, EQ);
      assert forall x :: x in line[..eq] ==> x in line;
      assert eq < |line| ==> forall x :: x in line[eq + 1..] ==> x in line;
      ParsedIsClean(AfterLine(p), AddLine(line, out));
    }
  }

  lemma LineTakenOff(k: bytes, v: bytes, rest: bytes, out: Fields)
    requires EQ !in k && NL !in k && NL !in v
    ensures var p := Line(k, v) + [NL] + rest;
            AfterLine(p) == rest && AddLine(p[..Cut(p, NL)], out) == out[k := v]
  {
    var line := Line(k, v);
    var p := line + [NL] + rest;
    assert p[..|line|] == line && p[|line| + 1..] == rest;
    hide Cut;
    CutUnique(p, NL, |line|);
    assert line[..|k|] == k && line[|k| + 1..] == v;
    CutUnique(line, EQ, |k|);
  }

  lemma {:induction false} MadeParses(keys: seq<bytes>, f: Fields, out: Fields)
    requires (forall k :: k in keys ==> k in f) && Clean(f)
    ensures ParseInto(Make(keys, f), out) == Gather(keys, f, out)
  {
    if keys != [] {
      var k := keys[0];
      var p := Make(keys, f);
      LineTakenOff(k, f[k], Make(keys[1..], f), out);
      assert p != [] && ParseInto(p, out) == ParseInto(AfterLine(p), AddLine(p[..Cut(p, NL)], out));
      hide Make, ParseInto, AfterLine, AddLine, Cut, Line;
      MadeParses(keys[1..], f, out[k := f[k]]);
    }
  }

  /** The fields that `keys` names, put into `out` one after the other. */
  function Gather(keys: seq<bytes>, f: Fields, out: Fields): Fields
    requires forall k :: k in keys ==> k in f
  {
    if keys == [] then out else Gather(keys[1..], f, out[keys[0] := f[keys[0]]])
  }

  lemma {:induction false} Gathered(keys: seq<bytes>, f: Fields, out: Fields)
    requires forall k :: k in keys ==> k in f
    ensures var g := Gather(keys, f, out);
            forall k :: if k in keys then k in g && g[k] == f[k]
                        else (k in g <==> k in out) && (k in g ==> g[k] == out[k])
  {
    if keys != [] {
      Gathered(keys[1..], f, out[keys[0] := f[keys[0]]]);
      assert keys == [keys[0]] + keys[1..];
    }
  }

  /** Parsing what was made gives the map back exactly when no key holds '=' or a newline and no
      value a newline. */
  lemma RoundTrip(keys: seq<bytes>, f: Fields)
    requires Enumerates(keys, f.Keys)
    ensures Parse(Make(keys, f)) == f <==> Clean(f)
  {
    if Clean(f) {
      MadeParses(keys, f, map[]);
      Gathered(keys, f, map[]);
      assert Gather(keys, f, map[]) == f;
    } else {
      ParsedIsClean(Make(keys, f), map[]);
    }
  }

  /** One parse normalises any bytes at all: making and parsing again changes nothing. */
  lemma ParseIsStable(p: bytes, keys: seq<bytes>)
    requires Enumerates(keys, Parse(p).Keys)
    ensures Parse(Make(keys, Parse(p))) == Parse(p)
  {
    ParsedIsClean(p, map[]);
    RoundTrip(keys, Parse(p));
  }
}
