// Byte strings and their order, as memcmp followed by a length comparison defines it
// (src/System/Buffers/Buffer.cpp, Buffer::Cmp and ReadBuffer::Cmp).

module Bytes {

  newtype byte = x: int | 0 <= x < 256

  type bytes = seq<byte>

  // The sign is that of memcmp on the common prefix; on a tie the shorter string is smaller.
  function Cmp(a: bytes, b: bytes): (r: int)
    ensures -1 <= r <= 1
  {
    if a == [] then (if b == [] then 0 else -1)
    else if b == [] then 1
    else if a[0] < b[0] then -1
    else if b[0] < a[0] then 1
    else Cmp(a[1..], b[1..])
  }

  predicate Less(a: bytes, b: bytes) { Cmp(a, b) < 0 }

  predicate AtMost(a: bytes, b: bytes) { Cmp(a, b) <= 0 }

  lemma {:induction false} CmpEqual(a: bytes, b: bytes)
    ensures Cmp(a, b) == 0 <==> a == b
  {
    if a != [] && b != [] {
      CmpEqual(a[1..], b[1..]);
      assert a == [a[0]] + a[1..] && b == [b[0]] + b[1..];
    }
  }

  lemma {:induction false} CmpFlip(a: bytes, b: bytes)
    ensures Cmp(a, b) == -Cmp(b, a)
  {
    if a != [] && b != [] { CmpFlip(a[1..], b[1..]); }
  }

  // Both the strict and the weak order are transitive, and mix.
  lemma {:induction false} CmpTransitive(a: bytes, b: bytes, c: bytes)
    requires Cmp(a, b) <= 0 && Cmp(b, c) <= 0
    ensures Cmp(a, c) <= 0
    ensures Cmp(a, b) < 0 || Cmp(b, c) < 0 ==> Cmp(a, c) < 0
  {
    if a != [] && b != [] && c != [] && a[0] == b[0] == c[0] {
      CmpTransitive(a[1..], b[1..], c[1..]);
    }
  }

  // The order facts in the form proofs use them: a total order with the empty string least.
  lemma TotalOrder()
    ensures forall a, b :: Cmp(a, b) == 0 <==> a == b
    ensures forall a, b :: Cmp(a, b) == -Cmp(b, a)
    ensures forall a, b, c :: Cmp(a, b) <= 0 && Cmp(b, c) <= 0 ==> Cmp(a, c) <= 0
    ensures forall a, b, c :: Cmp(a, b) < 0 && Cmp(b, c) <= 0 ==> Cmp(a, c) < 0
    ensures forall a, b, c :: Cmp(a, b) <= 0 && Cmp(b, c) < 0 ==> Cmp(a, c) < 0
    ensures forall a: bytes :: Cmp([], a) <= 0
  {
    forall a, b ensures Cmp(a, b) == 0 <==> a == b { CmpEqual(a, b); }
    forall a, b ensures Cmp(a, b) == -Cmp(b, a) { CmpFlip(a, b); }
    forall a, b, c ensures Cmp(a, b) <= 0 && Cmp(b, c) <= 0 ==> Cmp(a, c) <= 0
      ensures Cmp(a, b) < 0 && Cmp(b, c) <= 0 ==> Cmp(a, c) < 0
      ensures Cmp(a, b) <= 0 && Cmp(b, c) < 0 ==> Cmp(a, c) < 0
    {
      if Cmp(a, b) <= 0 && Cmp(b, c) <= 0 { CmpTransitive(a, b, c); }
    }
  }

  // Membership in [first, last), where an empty last key means no upper bound: the macros
  // GREATER_THAN and LESS_THAN of ConfigState.h.
  predicate InRange(first: bytes, last: bytes, key: bytes) {
    Cmp(key, first) >= 0 && (|last| == 0 || Cmp(key, last) < 0)
  }

  // RangeContains of Common.cpp, branch by branch.
  function RangeContains(first: bytes, last: bytes, key: bytes): bool {
    if |first| == 0 then
      if |last| == 0 then true
      else Cmp(key, last) < 0
    else if |last| == 0 then Cmp(first, key) <= 0
    else if Cmp(first, key) > 0 then false
    else Cmp(key, last) < 0
  }

  // The two ways the code base tests a key against a shard agree on every input.
  lemma RangeContainsIsInRange(first: bytes, last: bytes, key: bytes)
    ensures RangeContains(first, last, key) <==> InRange(first, last, key)
  {
    CmpFlip(first, key);
    CmpEqual(first, []);
    CmpEqual(key, []);
  }

  predicate BeginsWith(key: bytes, prefix: bytes) { prefix <= key }
}
