// Decimal numbers as byte strings: the digit loops of src/System/Formatting.cpp and
// src/System/Common.cpp, and the fact that reading undoes printing.

module Decimal {
  import opened Bytes

  const TWO_TO_32: nat := 0x1_0000_0000
  const TWO_TO_64: nat := 0x1_0000_0000_0000_0000

  predicate IsDigit(b: byte) { 48 <= b <= 57 }

  // The decimal representation without leading zeros.
  function Digits(n: nat): (d: bytes)
    ensures |d| >= 1
    ensures forall i :: 0 <= i < |d| ==> IsDigit(d[i])
  {
    if n < 10 then [(48 + n) as byte] else Digits(n / 10) + [(48 + n % 10) as byte]
  }

  // The number of leading digits of a buffer.
  function DigitCount(b: bytes): (n: nat)
    ensures n <= |b|
    ensures forall i :: 0 <= i < n ==> IsDigit(b[i])
    ensures n < |b| ==> !IsDigit(b[n])
  {
    if b == [] || !IsDigit(b[0]) then 0 else 1 + DigitCount(b[1..])
  }

  // The number that a string of digits denotes, with no bound on its size.
  function Value(d: bytes): nat
    requires forall i :: 0 <= i < |d| ==> IsDigit(d[i])
  {
    if d == [] then 0
    else
      assert IsDigit(d[|d| - 1]);
      10 * Value(d[..|d| - 1]) + (d[|d| - 1] as nat - 48)
  }

  lemma {:induction false} ValueOfDigits(n: nat)
    ensures Value(Digits(n)) == n
  {
    if n >= 10 {
      ValueOfDigits(n / 10);
      assert Digits(n)[..|Digits(n)| - 1] == Digits(n / 10);
    } else {
      assert Digits(n)[..0] == [];
    }
  }

  // Reading stops right behind a printed number unless another digit follows.
  lemma {:induction false} DigitCountPrefix(d: bytes, rest: bytes)
    requires forall i :: 0 <= i < |d| ==> IsDigit(d[i])
    requires rest == [] || !IsDigit(rest[0])
    ensures DigitCount(d + rest) == |d|
  {
    if d == [] {
      assert d + rest == rest;
    } else {
      DigitCountPrefix(d[1..], rest);
      assert (d + rest)[1..] == d[1..] + rest;
    }
  }

  // Printing a 64-bit number from some place of a buffer on: digits into a temporary array from the
  // last to the first, then copied in reverse, as far as the buffer reaches.  The result is the full
  // length needed.  Without room for a single byte the terminating zero is meant for a place outside
  // of the buffer: ok says that this does not happen.
  method UInt64ToBuffer(buf: array<byte>, at: nat, value: nat) returns (required: nat, ok: bool)
    requires at <= buf.Length && value < TWO_TO_64
    modifies buf
    ensures required == |Digits(value)| && buf[..at] == old(buf[..at])
    ensures ok <==> value == 0 || at < buf.Length
    ensures at + required < buf.Length ==> buf[at..at + required] == Digits(value) && buf[at + required] == 0
    ensures value != 0 && at < buf.Length <= at + required ==>
              buf[at..buf.Length - 1] == Digits(value)[..buf.Length - 1 - at] && buf[buf.Length - 1] == 0
    ensures value == 0 && buf.Length == at + 1 ==> buf[at] == 48
  {
    if value == 0 {
      if buf.Length > at { buf[at] := 48; }
      if buf.Length > at + 1 { buf[at + 1] := 0; }
      return 1, true;
    }
    var tmp := DigitsReversed(value);
    required := |tmp|;
    var i := 0;
    while i < required
      invariant 0 <= i <= required == |tmp|
      invariant buf[..at] == old(buf[..at])
      invariant forall j :: at <= j < at + i && j < buf.Length ==> buf[j] == Reverse(tmp)[j - at]
    {
      if at + i < buf.Length { buf[at + i] := tmp[required - 1 - i]; }
      i := i + 1;
    }
    if at + required < buf.Length {
      buf[at + required] := 0;
    } else if at < buf.Length {
      buf[buf.Length - 1] := 0;
    } else {
      return required, false;
    }
    ok := true;
  }

  // The loop over the remainders by ten.
  method DigitsReversed(value: nat) returns (tmp: bytes)
    requires value > 0
    ensures Digits(value) == Reverse(tmp)
  {
    tmp := [];
    var v := value;
    while v > 0
      invariant v > 0 || tmp != []
      invariant Digits(value) == (if v > 0 then Digits(v) else []) + Reverse(tmp)
    {
      ReverseAppend(tmp, (48 + v % 10) as byte);
      tmp := tmp + [(48 + v % 10) as byte];
      v := v / 10;
    }
  }

  function Reverse(s: bytes): (r: bytes)
    ensures |r| == |s|
    ensures forall i :: 0 <= i < |s| ==> r[i] == s[|s| - 1 - i]
  {
    if s == [] then [] else Reverse(s[1..]) + [s[0]]
  }

  lemma ReverseAppend(s: bytes, b: byte)
    ensures Reverse(s + [b]) == [b] + Reverse(s)
  {
    var l, r := Reverse(s + [b]), [b] + Reverse(s);
    forall i | 0 <= i < |l| ensures l[i] == r[i] {}
  }

  // BufferToUInt64: the running number wraps at 64 bits.
  method BufferToUInt64(buffer: bytes) returns (n: nat, nread: nat)
    ensures nread == DigitCount(buffer)
    ensures n == Value(buffer[..nread]) % TWO_TO_64
  {
    if |buffer| < 1 { return 0, 0; }
    n, nread := 0, 0;
    while nread < |buffer| && IsDigit(buffer[nread])
      invariant nread <= DigitCount(buffer) == nread + DigitCount(buffer[nread..])
      invariant n == Value(buffer[..nread]) % TWO_TO_64
    {
      var digit := buffer[nread] as nat - 48;
      assert buffer[..nread + 1][..nread] == buffer[..nread];
      assert buffer[nread..][1..] == buffer[nread + 1..];
      WrapStep(Value(buffer[..nread]), digit);
      n := (n * 10 + digit) % TWO_TO_64;
      nread := nread + 1;
    }
  }

  lemma WrapStep(v: nat, digit: nat)
    ensures ((v % TWO_TO_64) * 10 + digit) % TWO_TO_64 == (10 * v + digit) % TWO_TO_64
  {
    var q := v / TWO_TO_64;
    assert 10 * v + digit == (v % TWO_TO_64) * 10 + digit + TWO_TO_64 * (10 * q);
    ModPlusMultiple((v % TWO_TO_64) * 10 + digit, 10 * q);
  }

  lemma {:induction false} ModPlusMultiple(a: nat, k: nat)
    ensures (a + TWO_TO_64 * k) % TWO_TO_64 == a % TWO_TO_64
  {
    if k > 0 {
      ModPlusMultiple(a, k - 1);
      assert a + TWO_TO_64 * k == a + TWO_TO_64 * (k - 1) + TWO_TO_64;
    }
  }

  // ---- signed numbers

  const MINUS: byte := 45
  const TWO_TO_63: nat := 0x8000_0000_0000_0000

  function SignedText(v: int): bytes { if v < 0 then [MINUS] + Digits(-v) else Digits(v) }

  // The negation of the least 64-bit number overflows to itself, which as an unsigned number is right.
  method Int64ToBuffer(buf: array<byte>, value: int) returns (required: nat, ok: bool)
    requires 0 <= value + TWO_TO_63 && value < TWO_TO_63
    modifies buf
    ensures required == |SignedText(value)|
    ensures ok <==> buf.Length >= if value < 0 then 2 else if value == 0 then 0 else 1
    ensures required < buf.Length ==> buf[..required] == SignedText(value) && buf[required] == 0
  {
    hide Digits;
    if value < 0 {
      var r;
      if buf.Length == 0 {
        r, ok := UInt64ToBuffer(buf, 0, -value);
        return r + 1, ok;
      }
      if buf.Length == 1 {
        buf[0] := 0;
        r, ok := UInt64ToBuffer(buf, 1, -value);
        return r + 1, ok;
      }
      buf[0] := MINUS;
      r, ok := UInt64ToBuffer(buf, 1, -value);
      assert r + 1 < buf.Length ==> buf[..r + 1] == buf[..1] + buf[1..r + 1];
      return r + 1, ok;
    }
    required, ok := UInt64ToBuffer(buf, 0, value);
  }

  // The number read and how many characters it took; a lone sign is no number.
  function SignedRead(b: bytes): (int, nat) {
    if b != [] && b[0] == MINUS then
      var n := DigitCount(b[1..]);
      if n == 0 then (0, 0) else (0 - Value(b[1..][..n]) as int, n + 1)
    else
      (Value(b[..DigitCount(b)]), DigitCount(b))
  }

  // A number in 64 bits with a sign.
  function Wrapped(v: int): int { (v + TWO_TO_63) % TWO_TO_64 - TWO_TO_63 }

  lemma WrappedMultiple(v: int, k: int)
    ensures Wrapped(v + TWO_TO_64 * k) == Wrapped(v)
  {
    WholeMultiple(v + TWO_TO_63, k);
  }

  lemma {:induction false} WholeMultiple(a: int, k: int)
    ensures (a + TWO_TO_64 * k) % TWO_TO_64 == a % TWO_TO_64
    decreases if k < 0 then -k else k
  {
    if k > 0 {
      WholeMultiple(a, k - 1);
      assert a + TWO_TO_64 * k == a + TWO_TO_64 * (k - 1) + TWO_TO_64;
    } else if k < 0 {
      WholeMultiple(a, k + 1);
      assert a + TWO_TO_64 * (k + 1) == a + TWO_TO_64 * k + TWO_TO_64;
    }
  }

  lemma WrappedStep(v: int, digit: nat)
    ensures Wrapped(Wrapped(v) * 10 + digit) == Wrapped(10 * v + digit)
    ensures Wrapped(-Wrapped(v)) == Wrapped(-v)
  {
    var k := (v + TWO_TO_63) / TWO_TO_64;
    assert v == Wrapped(v) + TWO_TO_64 * k;
    WrappedMultiple(Wrapped(v) * 10 + digit, 10 * k);
    assert Wrapped(v) * 10 + digit + TWO_TO_64 * (10 * k) == 10 * v + digit;
    WrappedMultiple(-Wrapped(v), -k);
    assert -Wrapped(v) + TWO_TO_64 * (-k) == -v;
  }

  // BufferToInt64: the running number wraps at 64 bits and so does its negation.
  method BufferToInt64(buffer: bytes) returns (n: int, nread: nat)
    ensures n == Wrapped(SignedRead(buffer).0) && nread == SignedRead(buffer).1
    ensures 0 <= SignedRead(buffer).0 + TWO_TO_63 && SignedRead(buffer).0 < TWO_TO_63 ==> n == SignedRead(buffer).0
  {
    if |buffer| < 1 {
      assert buffer[..0] == [];
      return 0, 0;
    }
    if buffer[0] == MINUS {
      n, nread := ReadDigits(buffer[1..]);
      if nread == 0 { return 0, 0; }
      WrappedStep(Value(buffer[1..][..nread]), 0);
      return Wrapped(-n), nread + 1;
    }
    n, nread := ReadDigits(buffer);
  }

  method ReadDigits(d: bytes) returns (n: int, nread: nat)
    ensures nread == DigitCount(d) && n == Wrapped(Value(d[..nread]))
  {
    n, nread := 0, 0;
    while nread < |d| && IsDigit(d[nread])
      invariant nread <= DigitCount(d) == nread + DigitCount(d[nread..])
      invariant n == Wrapped(Value(d[..nread]))
    {
      assert d[..nread + 1][..nread] == d[..nread];
      assert d[nread..][1..] == d[nread + 1..];
      WrappedStep(Value(d[..nread]), d[nread] as nat - 48);
      n := Wrapped(n * 10 + (d[nread] as nat - 48));
      nread := nread + 1;
    }
  }

  lemma DigitsFollowed(v: nat, rest: bytes)
    requires rest == [] || !IsDigit(rest[0])
    ensures var b := Digits(v) + rest;
            b != [] && b[0] != MINUS && Digits(v) != [] && DigitCount(b) == |Digits(v)| && Value(b[..DigitCount(b)]) == v
  {
    var d := Digits(v);
    ValueOfDigits(v);
    DigitCountPrefix(d, rest);
    assert (d + rest)[..|d|] == d;
    assert IsDigit(d[0]);
  }

  lemma ReadSigned(t: bytes)
    ensures SignedRead([MINUS] + t) ==
              if DigitCount(t) == 0 then (0, 0) else (0 - Value(t[..DigitCount(t)]) as int, DigitCount(t) + 1)
  {
    hide DigitCount, Value;
    assert ([MINUS] + t)[1..] == t;
  }

  // Reading undoes printing, and stops right behind the number.
  lemma SignedRoundTrip(v: int, rest: bytes)
    requires rest == [] || !IsDigit(rest[0])
    ensures SignedRead(SignedText(v) + rest) == (v, |SignedText(v)|)
  {
    hide Digits, DigitCount, Value;
    DigitsFollowed(if v < 0 then -v else v, rest);
    if v < 0 {
      ReadSigned(Digits(-v) + rest);
      assert SignedText(v) + rest == [MINUS] + (Digits(-v) + rest);
      hide SignedRead;
    }
  }
}
