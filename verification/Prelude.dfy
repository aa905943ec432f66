/** Shared vocabulary: machine-width numbers, byte strings, options. */
module Prelude {
  const TWO32: nat := 0x1_0000_0000
  const TWO64: nat := 0x1_0000_0000_0000_0000

  type byte = n: nat | n < 256
  type u32 = n: nat | n < 0x1_0000_0000
  type u64 = n: nat | n < 0x1_0000_0000_0000_0000

  /** The source's std::string: a sequence of bytes with no character encoding. */
  type bytes = seq<byte>

  datatype Option<+T> = None | Some(value: T) {
    predicate IsFailure() { None? }

    function PropagateFailure<U>(): Option<U>
      requires None?
    {
      None
    }

    function Extract(): T
      requires Some?
    {
      value
    }
  }

  datatype Outcome<+E> = Pass | Fail(error: E) {
    predicate IsFailure() { Fail? }

    function PropagateFailure(): Outcome<E>
      requires Fail?
    {
      this
    }
  }

  /** `++counter` on an unsigned 64-bit counter. */
  function Bump(counter: u64): (next: u64)
  {
    (counter + 1) % TWO64
  }

  /** Concatenation of a list of byte strings. */
  function Flatten(parts: seq<bytes>): bytes
  {
    if parts == [] then [] else parts[0] + Flatten(parts[1..])
  }

  /** `order` lists each element of `s` exactly once: one possible iteration of a hash container. */
  ghost predicate Enumerates<T(!new)>(order: seq<T>, s: set<T>)
  {
    && (forall i, j :: 0 <= i < j < |order| ==> order[i] != order[j])
    && (forall x :: x in order <==> x in s)
  }

  lemma {:induction false} EnumerationTail<T(!new)>(order: seq<T>, s: set<T>)
    requires Enumerates(order, s) && order != []
    ensures order[0] in s && Enumerates(order[1..], s - {order[0]})
  {
    var rest := order[1..];
    assert forall k :: 0 <= k < |rest| ==> rest[k] == order[k + 1];
    forall x
      ensures x in rest <==> x in s - {order[0]}
    {
      if x in rest {
        var k :| 0 <= k < |rest| && rest[k] == x;
        assert order[k + 1] == x;
      }
      if x in s - {order[0]} {
        assert x in order;
        var k :| 0 <= k < |order| && order[k] == x;
        assert rest[k - 1] == x;
      }
    }
  }
}
