// The checksum of the cksum utility (src/System/Common.cpp): the table-driven loop against the division
// of polynomials over two elements.

module Checksum {

  const POLYNOMIAL: bv32 := 0x04c11db7

  // ---- the definition: a message as a polynomial, divided bit by bit

  // One step of the division: the remainder times x, reduced.
  function Shift(r: bv32): bv32 { if r & 0x80000000 != 0 then (r << 1) ^ POLYNOMIAL else r << 1 }

  // The remainder of the message, most significant bit first.
  function Remainder(r: bv32, bits: seq<bool>): bv32
    decreases |bits|
  {
    if bits == [] then r else Remainder(Xor(Shift(r), if bits[0] then 1 else 0), bits[1..])
  }

  function Zeros(n: nat): (z: seq<bool>)
    ensures |z| == n && forall i :: 0 <= i < n ==> !z[i]
  {
    seq(n, i => false)
  }

  function BitsOf(b: bv8): (bits: seq<bool>)
    ensures |bits| == 8
  {
    [b & 0x80 != 0, b & 0x40 != 0, b & 0x20 != 0, b & 0x10 != 0, b & 0x08 != 0, b & 0x04 != 0, b & 0x02 != 0, b & 0x01 != 0]
  }

  function Bits(data: seq<bv8>): seq<bool> {
    if data == [] then [] else BitsOf(data[0]) + Bits(data[1..])
  }

  // The length, lowest byte first, without leading zeros.
  function LengthBytes(n: nat): seq<bv8> { if n == 0 then [] else [(n % 256) as bv8] + LengthBytes(n / 256) }

  // The message followed by its length, times x to the 32nd, divided; the complement of the remainder.
  function Cksum(data: seq<bv8>): bv32 {
    Complement(Remainder(0, Bits(data + LengthBytes(|data|)) + Zeros(32)))
  }

  function Complement(r: bv32): bv32 { !r }

  // ---- the table

  function Row0(j: bv8): bv32
    requires j < 16
  {
    match j
    case 0 => 0x00000000
    case 1 => 0x04c11db7
    case 2 => 0x09823b6e
    case 3 => 0x0d4326d9
    case 4 => 0x130476dc
    case 5 => 0x17c56b6b
    case 6 => 0x1a864db2
    case 7 => 0x1e475005
    case 8 => 0x2608edb8
    case 9 => 0x22c9f00f
    case 10 => 0x2f8ad6d6
    case 11 => 0x2b4bcb61
    case 12 => 0x350c9b64
    case 13 => 0x31cd86d3
    case 14 => 0x3c8ea00a
    case _ => 0x384fbdbd
  }

  function Row1(j: bv8): bv32
    requires j < 16
  {
    match j
    case 0 => 0x4c11db70
    case 1 => 0x48d0c6c7
    case 2 => 0x4593e01e
    case 3 => 0x4152fda9
    case 4 => 0x5f15adac
    case 5 => 0x5bd4b01b
    case 6 => 0x569796c2
    case 7 => 0x52568b75
    case 8 => 0x6a1936c8
    case 9 => 0x6ed82b7f
    case 10 => 0x639b0da6
    case 11 => 0x675a1011
    case 12 => 0x791d4014
    case 13 => 0x7ddc5da3
    case 14 => 0x709f7b7a
    case _ => 0x745e66cd
  }

  function Row2(j: bv8): bv32
    requires j < 16
  {
    match j
    case 0 => 0x9823b6e0
    case 1 => 0x9ce2ab57
    case 2 => 0x91a18d8e
    case 3 => 0x95609039
    case 4 => 0x8b27c03c
    case 5 => 0x8fe6dd8b
    case 6 => 0x82a5fb52
    case 7 => 0x8664e6e5
    case 8 => 0xbe2b5b58
    case 9 => 0xbaea46ef
    case 10 => 0xb7a96036
    case 11 => 0xb3687d81
    case 12 => 0xad2f2d84
    case 13 => 0xa9ee3033
    case 14 => 0xa4ad16ea
    case _ => 0xa06c0b5d
  }

  function Row3(j: bv8): bv32
    requires j < 16
  {
    match j
    case 0 => 0xd4326d90
    case 1 => 0xd0f37027
    case 2 => 0xddb056fe
    case 3 => 0xd9714b49
    case 4 => 0xc7361b4c
    case 5 => 0xc3f706fb
    case 6 => 0xceb42022
    case 7 => 0xca753d95
    case 8 => 0xf23a8028
    case 9 => 0xf6fb9d9f
    case 10 => 0xfbb8bb46
    case 11 => 0xff79a6f1
    case 12 => 0xe13ef6f4
    case 13 => 0xe5ffeb43
    case 14 => 0xe8bccd9a
    case _ => 0xec7dd02d
  }

  function Row4(j: bv8): bv32
    requires j < 16
  {
    match j
    case 0 => 0x34867077
    case 1 => 0x30476dc0
    case 2 => 0x3d044b19
    case 3 => 0x39c556ae
    case 4 => 0x278206ab
    case 5 => 0x23431b1c
    case 6 => 0x2e003dc5
    case 7 => 0x2ac12072
    case 8 => 0x128e9dcf
    case 9 => 0x164f8078
    case 10 => 0x1b0ca6a1
    case 11 => 0x1fcdbb16
    case 12 => 0x018aeb13
    case 13 => 0x054bf6a4
    case 14 => 0x0808d07d
    case _ => 0x0cc9cdca
  }

  function Row5(j: bv8): bv32
    requires j < 16
  {
    match j
    case 0 => 0x7897ab07
    case 1 => 0x7c56b6b0
    case 2 => 0x71159069
    case 3 => 0x75d48dde
    case 4 => 0x6b93dddb
    case 5 => 0x6f52c06c
    case 6 => 0x6211e6b5
    case 7 => 0x66d0fb02
    case 8 => 0x5e9f46bf
    case 9 => 0x5a5e5b08
    case 10 => 0x571d7dd1
    case 11 => 0x53dc6066
    case 12 => 0x4d9b3063
    case 13 => 0x495a2dd4
    case 14 => 0x44190b0d
    case _ => 0x40d816ba
  }

  function Row6(j: bv8): bv32
    requires j < 16
  {
    match j
    case 0 => 0xaca5c697
    case 1 => 0xa864db20
    case 2 => 0xa527fdf9
    case 3 => 0xa1e6e04e
    case 4 => 0xbfa1b04b
    case 5 => 0xbb60adfc
    case 6 => 0xb6238b25
    case 7 => 0xb2e29692
    case 8 => 0x8aad2b2f
    case 9 => 0x8e6c3698
    case 10 => 0x832f1041
    case 11 => 0x87ee0df6
    case 12 => 0x99a95df3
    case 13 => 0x9d684044
    case 14 => 0x902b669d
    case _ => 0x94ea7b2a
  }

  function Row7(j: bv8): bv32
    requires j < 16
  {
    match j
    case 0 => 0xe0b41de7
    case 1 => 0xe4750050
    case 2 => 0xe9362689
    case 3 => 0xedf73b3e
    case 4 => 0xf3b06b3b
    case 5 => 0xf771768c
    case 6 => 0xfa325055
    case 7 => 0xfef34de2
    case 8 => 0xc6bcf05f
    case 9 => 0xc27dede8
    case 10 => 0xcf3ecb31
    case 11 => 0xcbffd686
    case 12 => 0xd5b88683
    case 13 => 0xd1799b34
    case 14 => 0xdc3abded
    case _ => 0xd8fba05a
  }

  function Row8(j: bv8): bv32
    requires j < 16
  {
    match j
    case 0 => 0x690ce0ee
    case 1 => 0x6dcdfd59
    case 2 => 0x608edb80
    case 3 => 0x644fc637
    case 4 => 0x7a089632
    case 5 => 0x7ec98b85
    case 6 => 0x738aad5c
    case 7 => 0x774bb0eb
    case 8 => 0x4f040d56
    case 9 => 0x4bc510e1
    case 10 => 0x46863638
    case 11 => 0x42472b8f
    case 12 => 0x5c007b8a
    case 13 => 0x58c1663d
    case 14 => 0x558240e4
    case _ => 0x51435d53
  }

  function Row9(j: bv8): bv32
    requires j < 16
  {
    match j
    case 0 => 0x251d3b9e
    case 1 => 0x21dc2629
    case 2 => 0x2c9f00f0
    case 3 => 0x285e1d47
    case 4 => 0x36194d42
    case 5 => 0x32d850f5
    case 6 => 0x3f9b762c
    case 7 => 0x3b5a6b9b
    case 8 => 0x0315d626
    case 9 => 0x07d4cb91
    case 10 => 0x0a97ed48
    case 11 => 0x0e56f0ff
    case 12 => 0x1011a0fa
    case 13 => 0x14d0bd4d
    case 14 => 0x19939b94
    case _ => 0x1d528623
  }

  function RowA(j: bv8): bv32
    requires j < 16
  {
    match j
    case 0 => 0xf12f560e
    case 1 => 0xf5ee4bb9
    case 2 => 0xf8ad6d60
    case 3 => 0xfc6c70d7
    case 4 => 0xe22b20d2
    case 5 => 0xe6ea3d65
    case 6 => 0xeba91bbc
    case 7 => 0xef68060b
    case 8 => 0xd727bbb6
    case 9 => 0xd3e6a601
    case 10 => 0xdea580d8
    case 11 => 0xda649d6f
    case 12 => 0xc423cd6a
    case 13 => 0xc0e2d0dd
    case 14 => 0xcda1f604
    case _ => 0xc960ebb3
  }

  function RowB(j: bv8): bv32
    requires j < 16
  {
    match j
    case 0 => 0xbd3e8d7e
    case 1 => 0xb9ff90c9
    case 2 => 0xb4bcb610
    case 3 => 0xb07daba7
    case 4 => 0xae3afba2
    case 5 => 0xaafbe615
    case 6 => 0xa7b8c0cc
    case 7 => 0xa379dd7b
    case 8 => 0x9b3660c6
    case 9 => 0x9ff77d71
    case 10 => 0x92b45ba8
    case 11 => 0x9675461f
    case 12 => 0x8832161a
    case 13 => 0x8cf30bad
    case 14 => 0x81b02d74
    case _ => 0x857130c3
  }

  function RowC(j: bv8): bv32
    requires j < 16
  {
    match j
    case 0 => 0x5d8a9099
    case 1 => 0x594b8d2e
    case 2 => 0x5408abf7
    case 3 => 0x50c9b640
    case 4 => 0x4e8ee645
    case 5 => 0x4a4ffbf2
    case 6 => 0x470cdd2b
    case 7 => 0x43cdc09c
    case 8 => 0x7b827d21
    case 9 => 0x7f436096
    case 10 => 0x7200464f
    case 11 => 0x76c15bf8
    case 12 => 0x68860bfd
    case 13 => 0x6c47164a
    case 14 => 0x61043093
    case _ => 0x65c52d24
  }

  function RowD(j: bv8): bv32
    requires j < 16
  {
    match j
    case 0 => 0x119b4be9
    case 1 => 0x155a565e
    case 2 => 0x18197087
    case 3 => 0x1cd86d30
    case 4 => 0x029f3d35
    case 5 => 0x065e2082
    case 6 => 0x0b1d065b
    case 7 => 0x0fdc1bec
    case 8 => 0x3793a651
    case 9 => 0x3352bbe6
    case 10 => 0x3e119d3f
    case 11 => 0x3ad08088
    case 12 => 0x2497d08d
    case 13 => 0x2056cd3a
    case 14 => 0x2d15ebe3
    case _ => 0x29d4f654
  }

  function RowE(j: bv8): bv32
    requires j < 16
  {
    match j
    case 0 => 0xc5a92679
    case 1 => 0xc1683bce
    case 2 => 0xcc2b1d17
    case 3 => 0xc8ea00a0
    case 4 => 0xd6ad50a5
    case 5 => 0xd26c4d12
    case 6 => 0xdf2f6bcb
    case 7 => 0xdbee767c
    case 8 => 0xe3a1cbc1
    case 9 => 0xe760d676
    case 10 => 0xea23f0af
    case 11 => 0xeee2ed18
    case 12 => 0xf0a5bd1d
    case 13 => 0xf464a0aa
    case 14 => 0xf9278673
    case _ => 0xfde69bc4
  }

  function RowF(j: bv8): bv32
    requires j < 16
  {
    match j
    case 0 => 0x89b8fd09
    case 1 => 0x8d79e0be
    case 2 => 0x803ac667
    case 3 => 0x84fbdbd0
    case 4 => 0x9abc8bd5
    case 5 => 0x9e7d9662
    case 6 => 0x933eb0bb
    case 7 => 0x97ffad0c
    case 8 => 0xafb010b1
    case 9 => 0xab710d06
    case 10 => 0xa6322bdf
    case 11 => 0xa2f33668
    case 12 => 0xbcb4666d
    case 13 => 0xb8757bda
    case 14 => 0xb5365d03
    case _ => 0xb1f740b4
  }

  // crctab, sixteen entries to a row.
  function Crctab(i: bv8): bv32 {
    var j := i & 0x0f;
    match i >> 4
    case 0 => Row0(j)
    case 1 => Row1(j)
    case 2 => Row2(j)
    case 3 => Row3(j)
    case 4 => Row4(j)
    case 5 => Row5(j)
    case 6 => Row6(j)
    case 7 => Row7(j)
    case 8 => Row8(j)
    case 9 => Row9(j)
    case 10 => RowA(j)
    case 11 => RowB(j)
    case 12 => RowC(j)
    case 13 => RowD(j)
    case 14 => RowE(j)
    case _ => RowF(j)
  }

  // Eight steps of the division.
  function Shift8(r: bv32): bv32 { Shift(Shift(Shift(Shift(Shift(Shift(Shift(Shift(r)))))))) }

  // A byte in the highest place.
  function AtTop(b: bv8): bv32 { (b as bv32) << 24 }

  lemma TableFirstQuarter(i: bv8)
    requires i < 0x40
    ensures Crctab(i) == Shift8(AtTop(i))
  {}

  lemma TableSecondQuarter(i: bv8)
    requires 0x40 <= i < 0x80
    ensures Crctab(i) == Shift8(AtTop(i))
  {}

  lemma TableThirdQuarter(i: bv8)
    requires 0x80 <= i < 0xc0
    ensures Crctab(i) == Shift8(AtTop(i))
  {}

  lemma TableLastQuarter(i: bv8)
    requires i >= 0xc0
    ensures Crctab(i) == Shift8(AtTop(i))
  {}

  // Each entry of the table is what eight steps make of its index.
  lemma TableIsShift8(i: bv8)
    ensures Crctab(i) == Shift8(AtTop(i))
  {
    hide Crctab, Shift8, AtTop;
    if i < 0x40 {
      TableFirstQuarter(i);
    } else if i < 0x80 {
      TableSecondQuarter(i);
    } else if i < 0xc0 {
      TableThirdQuarter(i);
    } else {
      TableLastQuarter(i);
    }
  }

  // ---- exclusive or, named so that proofs can use its laws without looking at bits

  function Xor(a: bv32, b: bv32): bv32 { a ^ b }

  function Double(a: bv32): bv32 { a << 1 }

  predicate HasTop(a: bv32) { a & 0x80000000 != 0 }

  lemma XorAssociates(a: bv32, b: bv32, c: bv32)
    ensures (a ^ b) ^ c == a ^ (b ^ c)
  {}

  lemma XorAssociative(a: bv32, b: bv32, c: bv32)
    ensures Xor(Xor(a, b), c) == Xor(a, Xor(b, c))
  {
    XorAssociates(a, b, c);
  }

  lemma XorUnits(a: bv32, b: bv32)
    ensures Xor(a, 0) == a && Xor(0, a) == a && Xor(a, b) == Xor(b, a) && Xor(a, a) == 0
  {}

  lemma XorLaws(a: bv32, b: bv32, p: bv32)
    ensures Xor(Xor(a, p), Xor(b, p)) == Xor(a, b)
    ensures Xor(Xor(a, p), b) == Xor(Xor(a, b), p) == Xor(a, Xor(b, p))
    ensures Xor(a, 0) == a && Xor(0, a) == a && Xor(a, b) == Xor(b, a)
  {
    hide Xor;
    XorUnits(a, b);
    XorUnits(p, b);
    XorUnits(b, p);
    XorUnits(p, p);
    XorUnits(p, Xor(b, p));
    XorAssociative(a, p, Xor(b, p));
    XorAssociative(b, p, p);
    XorAssociative(a, p, b);
    XorAssociative(a, b, p);
  }

  lemma DoubleOfXor(a: bv32, b: bv32)
    ensures (a ^ b) << 1 == (a << 1) ^ (b << 1)
  {}

  lemma TopOfXor(a: bv32, b: bv32)
    ensures (a ^ b) & 0x80000000 != 0 <==> (a & 0x80000000 != 0) != (b & 0x80000000 != 0)
  {}

  lemma DoubleXor(a: bv32, b: bv32)
    ensures Double(Xor(a, b)) == Xor(Double(a), Double(b))
    ensures HasTop(Xor(a, b)) <==> (HasTop(a) != HasTop(b))
  {
    DoubleOfXor(a, b);
    TopOfXor(a, b);
  }

  lemma ShiftCases(r: bv32)
    ensures Shift(r) == if HasTop(r) then Xor(Double(r), POLYNOMIAL) else Double(r)
  {}

  // ---- division without the zeros at the end

  lemma ShiftLinear(a: bv32, b: bv32)
    ensures Shift(Xor(a, b)) == Xor(Shift(a), Shift(b))
  {
    ShiftCases(a);
    ShiftCases(b);
    ShiftCases(Xor(a, b));
    DoubleXor(a, b);
    XorLaws(Double(a), Double(b), POLYNOMIAL);
    hide Shift, Xor, Double, HasTop;
  }

  function ShiftBy(n: nat, r: bv32): bv32 { if n == 0 then r else ShiftBy(n - 1, Shift(r)) }

  lemma {:induction false} ShiftByLinear(n: nat, a: bv32, b: bv32)
    ensures ShiftBy(n, Xor(a, b)) == Xor(ShiftBy(n, a), ShiftBy(n, b))
  {
    hide Shift, Xor;
    if n > 0 {
      ShiftLinear(a, b);
      ShiftByLinear(n - 1, Shift(a), Shift(b));
    }
  }

  lemma {:induction false} ShiftByCommutes(n: nat, r: bv32)
    ensures ShiftBy(n, Shift(r)) == Shift(ShiftBy(n, r))
  {
    hide Shift;
    if n > 0 { ShiftByCommutes(n - 1, Shift(r)); }
  }

  lemma {:induction false} ShiftByAdds(m: nat, n: nat, r: bv32)
    ensures ShiftBy(m + n, r) == ShiftBy(n, ShiftBy(m, r))
  {
    hide Shift;
    if m > 0 { ShiftByAdds(m - 1, n, Shift(r)); }
  }

  // One, times x to the 32nd, is the polynomial without its leading term.
  lemma OneShifted()
    ensures ShiftBy(32, 1) == POLYNOMIAL
  {
    ShiftByEight(1);
    ShiftByEight(0x100);
    ShiftByEight(0x10000);
    ShiftByEight(0x1000000);
    ShiftByAdds(8, 8, 1);
    ShiftByAdds(16, 8, 1);
    ShiftByAdds(24, 8, 1);
  }

  lemma ShiftByEight(r: bv32)
    ensures ShiftBy(8, r) == Shift8(r)
  {
    hide Shift;
    var r4 := Shift(Shift(Shift(Shift(r))));
    assert ShiftBy(4, r) == ShiftBy(2, Shift(Shift(r))) == ShiftBy(0, r4);
    assert ShiftBy(4, r4) == ShiftBy(2, Shift(Shift(r4))) == ShiftBy(0, Shift8(r));
    ShiftByAdds(4, 4, r);
  }

  lemma {:induction false} RemainderOfZeros(r: bv32, n: nat)
    ensures Remainder(r, Zeros(n)) == ShiftBy(n, r)
    decreases n
  {
    if n > 0 {
      assert Zeros(n)[1..] == Zeros(n - 1);
      XorLaws(Shift(r), 0, 0);
      hide Shift, Xor;
      RemainderOfZeros(Shift(r), n - 1);
    }
  }

  lemma {:induction false} RemainderConcat(r: bv32, a: seq<bool>, b: seq<bool>)
    ensures Remainder(r, a + b) == Remainder(Remainder(r, a), b)
    decreases |a|
  {
    hide Shift, Xor;
    if a == [] {
      assert a + b == b;
    } else {
      assert (a + b)[1..] == a[1..] + b && (a + b)[0] == a[0];
      RemainderConcat(Xor(Shift(r), if a[0] then 1 else 0), a[1..], b);
    }
  }

  // The same division with each bit added to the top, which saves the 32 zeros.
  function Divide(r: bv32, bits: seq<bool>): bv32
    decreases |bits|
  {
    if bits == [] then r else Divide(Shift(Xor(r, if bits[0] then 0x80000000 else 0)), bits[1..])
  }

  lemma TopAdds()
    ensures Shift(0x80000000) == POLYNOMIAL
  {}

  lemma {:induction false} DivideIsRemainder(r: bv32, bits: seq<bool>)
    ensures Divide(ShiftBy(32, r), bits) == ShiftBy(32, Remainder(r, bits))
    decreases |bits|
  {
    hide Shift, ShiftBy, Xor;
    if bits != [] {
      var z, next := ShiftBy(32, r), Xor(Shift(r), if bits[0] then 1 else 0);
      ShiftByCommutes(32, r);
      ShiftByLinear(32, Shift(r), 1);
      ShiftLinear(z, 0x80000000);
      OneShifted();
      TopAdds();
      XorLaws(z, 0, 0);
      XorLaws(Shift(r), 0, 0);
      assert Shift(Xor(z, if bits[0] then 0x80000000 else 0)) == ShiftBy(32, next);
      DivideIsRemainder(next, bits[1..]);
    }
  }

  lemma ZeroShifted()
    ensures ShiftBy(32, 0) == 0
  {
    ShiftByEight(0);
    ShiftByAdds(8, 8, 0);
    ShiftByAdds(16, 8, 0);
    ShiftByAdds(24, 8, 0);
  }

  // Both divisions of a whole message agree.
  lemma DivideWholeMessage(bits: seq<bool>)
    ensures Divide(0, bits) == Remainder(0, bits + Zeros(32))
  {
    hide Shift, ShiftBy, Divide, Remainder;
    ZeroShifted();
    DivideIsRemainder(0, bits);
    RemainderConcat(0, bits, Zeros(32));
    RemainderOfZeros(Remainder(0, bits), 32);
  }

  // ---- byte by byte

  // The body of both loops.
  function Step(crc: bv32, b: bv8): bv32 { Xor(Up(crc), Crctab(Index(crc, b))) }

  function Up(crc: bv32): bv32 { crc << 8 }

  // The place in the table.
  function Index(crc: bv32, b: bv8): bv8 { ((crc >> 24) as bv8) ^ b }

  function Top(crc: bv32): bv32 { crc & 0xff000000 }

  function Low(crc: bv32): bv32 { crc & 0x00ffffff }

  lemma TopAndLow(crc: bv32, b: bv8)
    ensures Xor(Top(crc), Low(crc)) == crc
    ensures AtTop(Index(crc, b)) == Xor(Top(crc), AtTop(b))
    ensures Up(Low(crc)) == Up(crc)
  {}

  function Doubled(l: bv32): bv32 { Double(Double(Double(Double(Double(Double(Double(Double(l)))))))) }

  lemma NoReduction(crc: bv32)
    ensures var l := Low(crc);
            !HasTop(l) && !HasTop(Double(l)) && !HasTop(Double(Double(l))) && !HasTop(Double(Double(Double(l))))
            && !HasTop(Double(Double(Double(Double(l))))) && !HasTop(Double(Double(Double(Double(Double(l))))))
            && !HasTop(Double(Double(Double(Double(Double(Double(l)))))))
            && !HasTop(Double(Double(Double(Double(Double(Double(Double(l))))))))
  {}

  lemma DoubledIsShift(l: bv32)
    ensures Doubled(l) == Up(l)
  {}

  // The lower bits move up without a reduction.
  lemma LowMovesUp(crc: bv32)
    ensures Shift8(Low(crc)) == Up(Low(crc))
  {
    var l := Low(crc);
    NoReduction(crc);
    DoubledIsShift(l);
    var l2 := Double(Double(l));
    var l4 := Double(Double(l2));
    var l6 := Double(Double(l4));
    ShiftCases(l);
    ShiftCases(Double(l));
    ShiftCases(l2);
    ShiftCases(Double(l2));
    ShiftCases(l4);
    ShiftCases(Double(l4));
    ShiftCases(l6);
    ShiftCases(Double(l6));
    hide Shift, Double, HasTop, Low, Xor, Up;
  }

  lemma Shift8Linear(a: bv32, b: bv32)
    ensures Shift8(Xor(a, b)) == Xor(Shift8(a), Shift8(b))
  {
    hide Shift, Xor, Shift8;
    ShiftByEight(a);
    ShiftByEight(b);
    ShiftByEight(Xor(a, b));
    ShiftByLinear(8, a, b);
  }

  lemma StepIsShift8(crc: bv32, b: bv8)
    ensures Step(crc, b) == Shift8(Xor(crc, AtTop(b)))
  {
    hide Crctab, Shift8, Top, Low, Xor, Up, AtTop, Index;
    var top, low, byte := Top(crc), Low(crc), AtTop(b);
    TopAndLow(crc, b);
    TableIsShift8(Index(crc, b));
    LowMovesUp(crc);
    Shift8Linear(Xor(top, byte), low);
    XorLaws(top, low, byte);
    XorUnits(Shift8(Xor(top, byte)), Up(low));
  }

  function BitAt(v: bool, w: bv32): bv32 { if v then w else 0 }

  // The bits of the top byte, the highest first.
  function Weight(k: nat): bv32
    requires k < 8
  {
    if k == 0 then 0x80000000 else if k == 1 then 0x40000000 else if k == 2 then 0x20000000 else if k == 3 then 0x10000000
    else if k == 4 then 0x08000000 else if k == 5 then 0x04000000 else if k == 6 then 0x02000000 else 0x01000000
  }

  lemma WeightShifts(k: nat)
    requires k < 7
    ensures Shift(Weight(k + 1)) == Weight(k) && Shift(0) == 0
  {}

  // Some bits, from place k on.
  function Placed(v: seq<bool>, k: nat): bv32
    requires k + |v| <= 8
  {
    if v == [] then 0 else Xor(BitAt(v[0], Weight(k)), Placed(v[1..], k + 1))
  }

  lemma {:induction false} PlacedShifts(v: seq<bool>, k: nat)
    requires k + 1 + |v| <= 8
    ensures Shift(Placed(v, k + 1)) == Placed(v, k)
    decreases |v|
  {
    WeightZero();
    if v != [] {
      WeightShifts(k);
      hide Shift, Xor, Weight;
      PlacedShifts(v[1..], k + 1);
      ShiftLinear(BitAt(v[0], Weight(k + 1)), Placed(v[1..], k + 2));
    }
  }

  lemma WeightZero()
    ensures Shift(0) == 0 && Weight(0) == 0x80000000
  {}

  // Dividing a few bits is adding them to the top and shifting as often.
  lemma {:induction false} DivideFew(r: bv32, v: seq<bool>)
    requires |v| <= 8
    ensures Divide(r, v) == ShiftBy(|v|, Xor(r, Placed(v, 0)))
    decreases |v|
  {
    WeightZero();
    XorUnits(r, r);
    hide Shift, Xor, Weight;
    if v != [] {
      var top, more := BitAt(v[0], 0x80000000), Placed(v[1..], 0);
      DivideFew(Shift(Xor(r, top)), v[1..]);
      PlacedShifts(v[1..], 0);
      ShiftLinear(Xor(r, top), Placed(v[1..], 1));
      XorLaws(r, Placed(v[1..], 1), top);
      XorUnits(top, Placed(v[1..], 1));
      assert Placed(v, 0) == Xor(top, Placed(v[1..], 1));
    }
  }

  lemma {:induction false} DivideConcat(r: bv32, a: seq<bool>, b: seq<bool>)
    ensures Divide(r, a + b) == Divide(Divide(r, a), b)
    decreases |a|
  {
    hide Shift, Xor;
    if a == [] {
      assert a + b == b;
    } else {
      assert (a + b)[1..] == a[1..] + b && (a + b)[0] == a[0];
      DivideConcat(Shift(Xor(r, if a[0] then 0x80000000 else 0)), a[1..], b);
    }
  }

  function TopByte(v: seq<bool>): bv32
    requires |v| == 8
  {
    Xor(BitAt(v[0], 0x80000000), Xor(BitAt(v[1], 0x40000000), Xor(BitAt(v[2], 0x20000000), Xor(BitAt(v[3], 0x10000000),
      Xor(BitAt(v[4], 0x08000000), Xor(BitAt(v[5], 0x04000000), Xor(BitAt(v[6], 0x02000000), Xor(BitAt(v[7], 0x01000000), 0))))))))
  }

  lemma ByteOfBits(b: bv8)
    ensures TopByte(BitsOf(b)) == AtTop(b)
  {}

  lemma PlacedTail(v: seq<bool>, k: nat)
    requires |v| == 8 && k < 8
    ensures Placed(v[k..], k) == Xor(BitAt(v[k], Weight(k)), Placed(v[k + 1..], k + 1))
    ensures Placed(v[8..], 8) == 0
  {
    assert v[k..][1..] == v[k + 1..];
  }

  lemma PlacedByte(v: seq<bool>)
    requires |v| == 8
    ensures Placed(v, 0) == TopByte(v)
  {
    hide Xor, BitAt, Placed;
    assert v[0..] == v;
    PlacedTail(v, 0);
    PlacedTail(v, 1);
    PlacedTail(v, 2);
    PlacedTail(v, 3);
    PlacedTail(v, 4);
    PlacedTail(v, 5);
    PlacedTail(v, 6);
    PlacedTail(v, 7);
  }

  // Dividing the bits of a byte is one turn of the loop.
  lemma DivideByte(r: bv32, b: bv8)
    ensures Divide(r, BitsOf(b)) == Step(r, b)
  {
    hide Step, Shift8, Divide, BitsOf, TopByte, Xor, ShiftBy, AtTop;
    DivideFew(r, BitsOf(b));
    PlacedByte(BitsOf(b));
    ByteOfBits(b);
    ShiftByEight(Xor(r, AtTop(b)));
    StepIsShift8(r, b);
  }

  // The loop over a message.
  function Run(crc: bv32, data: seq<bv8>): bv32
    decreases |data|
  {
    if data == [] then crc else Run(Step(crc, data[0]), data[1..])
  }

  lemma {:induction false} RunIsDivide(crc: bv32, data: seq<bv8>)
    ensures Run(crc, data) == Divide(crc, Bits(data))
    decreases |data|
  {
    hide Step, BitsOf;
    if data != [] {
      hide Divide;
      DivideByte(crc, data[0]);
      DivideConcat(crc, BitsOf(data[0]), Bits(data[1..]));
      RunIsDivide(Step(crc, data[0]), data[1..]);
    }
  }

  // Main result: the loop over the message and its length yields the specified checksum.
  lemma RunIsCksum(data: seq<bv8>)
    ensures Complement(Run(0, data + LengthBytes(|data|))) == Cksum(data)
  {
    hide Run, Divide, Remainder, Bits, Complement;
    RunIsDivide(0, data + LengthBytes(|data|));
    DivideWholeMessage(Bits(data + LengthBytes(|data|)));
  }

  lemma {:induction false} RunConcat(crc: bv32, a: seq<bv8>, b: seq<bv8>)
    ensures Run(crc, a + b) == Run(Run(crc, a), b)
    decreases |a|
  {
    hide Step;
    if a == [] {
      assert a + b == b;
    } else {
      assert (a + b)[1..] == a[1..] + b && (a + b)[0] == a[0];
      RunConcat(Step(crc, a[0]), a[1..], b);
    }
  }

  method ChecksumBuffer(buffer: seq<bv8>) returns (crc: bv32)
    ensures crc == Cksum(buffer)
  {
    hide Step, Run, Cksum, Crctab, LengthBytes, Complement;
    crc := 0;
    RunNothing(crc);
    var i := 0;
    while i < |buffer|
      invariant i <= |buffer| && Run(0, buffer) == Run(crc, buffer[i..])
    {
      RunFirst(crc, buffer[i..]);
      assert buffer[i..][1..] == buffer[i + 1..];
      crc := Step(crc, buffer[i]);
      i := i + 1;
    }
    RunNothing(crc);
    assert buffer[i..] == [];
    RunConcat(0, buffer, LengthBytes(|buffer|));
    var n: nat := |buffer|;
    while n > 0
      invariant Run(0, buffer + LengthBytes(|buffer|)) == Run(crc, LengthBytes(n))
    {
      LowestByte(n);
      RunFirst(crc, LengthBytes(n));
      crc := Step(crc, (n % 256) as bv8);
      n := n / 256;
    }
    NoLength();
    RunNothing(crc);
    RunIsCksum(buffer);
    crc := Complement(crc);
  }

  lemma RunNothing(crc: bv32)
    ensures Run(crc, []) == crc
  {}

  lemma RunFirst(crc: bv32, data: seq<bv8>)
    requires data != []
    ensures Run(crc, data) == Run(Step(crc, data[0]), data[1..])
  {}

  lemma LowestByte(n: nat)
    requires n > 0
    ensures LengthBytes(n) != [] && LengthBytes(n)[0] == (n % 256) as bv8 && LengthBytes(n)[1..] == LengthBytes(n / 256)
  {}

  lemma NoLength()
    ensures LengthBytes(0) == []
  {}

  // The value that the cksum utility gives for the nine digits, and that of the empty message.
  lemma KnownValues()
    ensures Cksum([49, 50, 51, 52, 53, 54, 55, 56, 57]) == 930766865
    ensures Cksum([]) == 4294967295
  {
    hide Cksum, Run, Crctab;
    var data: seq<bv8> := [49, 50, 51, 52, 53, 54, 55, 56, 57];
    NineIsOneByte();
    RunIsCksum(data);
    assert data + [9] == [49, 50, 51, 52, 53, 54, 55, 56, 57, 9];
    TenSteps();
    RunIsCksum([]);
    NoLength();
    RunNothing(0);
    var empty: seq<bv8> := [];
    assert empty + LengthBytes(0) == empty;
  }

  lemma NineIsOneByte()
    ensures LengthBytes(9) == [9]
  {
    LowestByte(9);
    NoLength();
  }

  lemma OneStep(crc: bv32, data: seq<bv8>, k: nat)
    requires k < |data|
    ensures Run(crc, data[k..]) == Run(Step(crc, data[k]), data[k + 1..])
  {
    RunFirst(crc, data[k..]);
    assert data[k..][1..] == data[k + 1..];
  }

  lemma FirstSteps()
    ensures Step(0, 49) == 0xd0f37027
    ensures Step(0xd0f37027, 50) == 0x3f5b3a17
    ensures Step(0x3f5b3a17, 51) == 0x6e368c64
  {
    assert Index(0, 49) == 49 && Crctab(49) == 0xd0f37027;
    assert Index(0xd0f37027, 50) == 226 && Crctab(226) == 0xcc2b1d17;
    assert Index(0x3f5b3a17, 51) == 12 && Crctab(12) == 0x350c9b64;
  }

  lemma MoreSteps()
    ensures Step(0x6e368c64, 52) == 0x619119d1
    ensures Step(0x619119d1, 53) == 0xfa8a0cdb
    ensures Step(0xfa8a0cdb, 54) == 0xe28ad0fd
  {
    assert Index(0x6e368c64, 52) == 90 && Crctab(90) == 0x571d7dd1;
    assert Index(0x619119d1, 53) == 84 && Crctab(84) == 0x6b93dddb;
    assert Index(0xfa8a0cdb, 54) == 204 && Crctab(204) == 0x68860bfd;
  }

  lemma LastSteps()
    ensures Step(0xe28ad0fd, 55) == 0x8c8edd82
    ensures Step(0x8c8edd82, 56) == 0x20e779a2
    ensures Step(0x20e779a2, 57) == 0x89a1897f
    ensures Step(0x89a1897f, 9) == 0xc8859fee
  {
    assert Index(0xe28ad0fd, 55) == 213 && Crctab(213) == 0x065e2082;
    assert Index(0x8c8edd82, 56) == 180 && Crctab(180) == 0xae3afba2;
    assert Index(0x20e779a2, 57) == 25 && Crctab(25) == 0x6ed82b7f;
    assert Index(0x89a1897f, 9) == 128 && Crctab(128) == 0x690ce0ee;
  }

  lemma TenSteps()
    ensures Run(0, [49, 50, 51, 52, 53, 54, 55, 56, 57, 9]) == 0xc8859fee
  {
    hide Step, Run;
    var data: seq<bv8> := [49, 50, 51, 52, 53, 54, 55, 56, 57, 9];
    FirstSteps();
    MoreSteps();
    LastSteps();
    assert data[0..] == data && data[10..] == [];
    OneStep(0, data, 0);
    OneStep(0xd0f37027, data, 1);
    OneStep(0x3f5b3a17, data, 2);
    OneStep(0x6e368c64, data, 3);
    OneStep(0x619119d1, data, 4);
    OneStep(0xfa8a0cdb, data, 5);
    OneStep(0xe28ad0fd, data, 6);
    OneStep(0x8c8edd82, data, 7);
    OneStep(0x20e779a2, data, 8);
    OneStep(0x89a1897f, data, 9);
    RunNothing(0xc8859fee);
  }

  // ---- powers of two

  // The least power of two not below x, for x from 1 to 2^31; the result is 0 for every other x,
  // and only for those.
  method NextPowerOfTwo(x: bv32) returns (r: bv32)
    ensures 1 <= x <= 0x80000000 ==> r & (r - 1) == 0 && x <= r && r >> 1 < x
    ensures r == 0 <==> x == 0 || x > 0x80000000
  {
    r := x - 1;
    r := r | (r >> 1);
    r := r | (r >> 2);
    r := r | (r >> 4);
    r := r | (r >> 8);
    r := r | (r >> 16);
    r := r + 1;
  }
}
