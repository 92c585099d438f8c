// The formatted printer and reader of src/System/Formatting.cpp.  A format string together with its
// arguments is a list of items; the format alone is the list of their kinds.  Padding, %s, %x, %p,
// signed numbers and the unprefixed buffers are not used by the formats of this project.

module Formatting {
  import opened Bytes
  import opened Decimal

  datatype Item =
    | Lit(b: byte)       // a character of the format itself
    | Chr(c: byte)       // %c
    | Flag(v: bool)      // %b, printed as T or F
    | U32(n: nat)        // %u
    | U64(n: nat)        // %U
    | Text(s: bytes)     // %#B and %#R, printed with its length and a colon in front

  datatype Kind = KLit(b: byte) | KChr | KFlag | KU32 | KU64 | KText

  const COLON: byte := 58
  const SEP: Item := Lit(COLON)
  const KSEP: Kind := KLit(COLON)
  const LETTER_T: byte := 84
  const LETTER_F: byte := 70

  function KindOf(i: Item): Kind {
    match i
    case Lit(b) => KLit(b)
    case Chr(_) => KChr
    case Flag(_) => KFlag
    case U32(_) => KU32
    case U64(_) => KU64
    case Text(_) => KText
  }

  function Kinds(items: seq<Item>): (kinds: seq<Kind>)
    ensures |kinds| == |items| && forall k :: 0 <= k < |items| ==> kinds[k] == KindOf(items[k])
  {
    seq(|items|, k requires 0 <= k < |items| => KindOf(items[k]))
  }

  // ---- printing

  function ItemText(i: Item): (t: bytes)
    ensures |t| >= 1
  {
    match i
    case Lit(b) => [b]
    case Chr(c) => [c]
    case Flag(v) => [if v then LETTER_T else LETTER_F]
    case U32(n) => Digits(n)
    case U64(n) => Digits(n)
    case Text(s) => Digits(|s|) + [COLON] + s
  }

  // The text of the items followed by rest.
  function Render(items: seq<Item>, rest: bytes): bytes {
    if items == [] then rest else ItemText(items[0]) + Render(items[1..], rest)
  }

  lemma {:induction false} RenderAppends(items: seq<Item>, rest: bytes)
    ensures Render(items, rest) == Render(items, []) + rest
  {
    if items != [] {
      RenderAppends(items[1..], rest);
      var t, r := ItemText(items[0]), Render(items[1..], []);
      assert t + (r + rest) == (t + r) + rest;
    }
  }

  lemma {:induction false} RenderConcat(a: seq<Item>, b: seq<Item>, rest: bytes)
    ensures Render(a + b, rest) == Render(a, Render(b, rest))
  {
    hide ItemText;
    if a == [] {
      assert a + b == b;
    } else {
      RenderConcat(a[1..], b, rest);
      assert (a + b)[1..] == a[1..] + b;
    }
  }

  // One ":%U" for each number, followed by rest.
  function NumbersText(ids: seq<nat>, rest: bytes): bytes {
    if ids == [] then rest else Render([SEP, U64(ids[0])], NumbersText(ids[1..], rest))
  }

  // VWritef into a buffer of any size: the result is the size needed, whatever the buffer holds;
  // if it suffices, the text is in the buffer.  Once an item does not fit, nothing more is stored
  // except at the place where it would have begun.
  method VWritef(buffer: array<byte>, items: seq<Item>) returns (required: nat)
    modifies buffer
    ensures required == |Render(items, [])|
    ensures required <= buffer.Length ==>
              buffer[..required] == Render(items, []) && buffer[required..] == old(buffer[required..])
  {
    required := 0;
    var skip, pos: nat := false, 0;
    for k := 0 to |items|
      invariant Render(items, []) == Render(items[..k], []) + Render(items[k..], [])
      invariant required == |Render(items[..k], [])| && pos <= buffer.Length
      invariant skip ==> required > buffer.Length
      invariant !skip ==> pos == required && buffer[..pos] == Render(items[..k], [])
      invariant !skip ==> buffer[pos..] == old(buffer[pos..])
    {
      var text := ItemText(items[k]);
      StepRender(items, k);
      required := required + |text|;
      if buffer.Length - pos < |text| { skip := true; }
      Store(buffer, pos, text);
      if !skip { pos := pos + |text|; }
    }
    assert items[..|items|] == items && Render(items[|items|..], []) == [];
  }

  // Copies as much of the text as there is room for.
  method Store(buffer: array<byte>, pos: nat, text: bytes)
    requires pos <= buffer.Length
    modifies buffer
    ensures buffer[..pos] == old(buffer[..pos])
    ensures pos + |text| <= buffer.Length ==>
              buffer[..pos + |text|] == old(buffer[..pos]) + text && buffer[pos + |text|..] == old(buffer[pos + |text|..])
  {
    forall j | 0 <= j < |text| && pos + j < buffer.Length { buffer[pos + j] := text[j]; }
  }

  lemma StepRender(items: seq<Item>, k: nat)
    requires k < |items|
    ensures Render(items[..k + 1], []) == Render(items[..k], []) + ItemText(items[k])
    ensures Render(items[k..], []) == ItemText(items[k]) + Render(items[k + 1..], [])
    ensures Render(items[..k], []) + Render(items[k..], []) == Render(items[..k + 1], []) + Render(items[k + 1..], [])
  {
    assert items[..k + 1] == items[..k] + [items[k]];
    RenderConcat(items[..k], [items[k]], []);
    RenderAppends(items[..k], Render([items[k]], []));
    assert items[k..][1..] == items[k + 1..];
    var a, t, r := Render(items[..k], []), ItemText(items[k]), Render(items[k + 1..], []);
    assert a + (t + r) == (a + t) + r;
  }

  // ---- reading

  datatype Scanned = Matched(items: seq<Item>, rest: bytes) | NoMatch | AssertFailed

  // The outcome of a reader built on these: Failed where it returns false, Asserted where an
  // assertion fails.
  datatype Parsed<+T> = Got(value: T, rest: bytes) | Failed | Asserted {
    predicate IsFailure() { !Got? }

    function PropagateFailure<U>(): Parsed<U>
      requires IsFailure()
    {
      if Failed? then Failed else Asserted
    }

    function Extract(): (r: Parsed<T>)
      requires !IsFailure()
      ensures r == this
    {
      this
    }
  }

  // A number wraps at 64 bits as it is read and is cut to 32 bits for %u and for a length.
  function ScanOne(kind: Kind, b: bytes): (r: Scanned)
    ensures r.Matched? ==> |r.items| == 1 && KindOf(r.items[0]) == kind && |r.rest| < |b|
  {
    match kind
    case KLit(c) => if b == [] || b[0] != c then NoMatch else Matched([Lit(c)], b[1..])
    case KChr => if b == [] then NoMatch else Matched([Chr(b[0])], b[1..])
    case KFlag => if b == [] then NoMatch else Matched([Flag(b[0] == LETTER_T)], b[1..])
    case KU32 =>
      var n := DigitCount(b);
      if n < 1 then NoMatch else Matched([U32(Value(b[..n]) % TWO_TO_64 % TWO_TO_32)], b[n..])
    case KU64 =>
      var n := DigitCount(b);
      if n < 1 then NoMatch else Matched([U64(Value(b[..n]) % TWO_TO_64)], b[n..])
    case KText =>
      if |b| < 2 then AssertFailed
      else
        var n := DigitCount(b);
        if n < 1 then NoMatch
        else
          var length, c := Value(b[..n]) % TWO_TO_64 % TWO_TO_32, b[n..];
          if c == [] || c[0] != COLON || |c[1..]| < length then NoMatch
          else Matched([Text(c[1..][..length])], c[1..][length..])
  }

  function Scan(kinds: seq<Kind>, b: bytes): (r: Scanned)
    ensures r.Matched? ==> Kinds(r.items) == kinds && |r.rest| + |kinds| <= |b|
  {
    if kinds == [] then Matched([], b)
    else
      match ScanOne(kinds[0], b)
      case NoMatch => NoMatch
      case AssertFailed => AssertFailed
      case Matched(i, rest) =>
        match Scan(kinds[1..], rest)
        case NoMatch => NoMatch
        case AssertFailed => AssertFailed
        case Matched(more, rest') => Matched(i + more, rest')
  }

  // VReadf: one directive after the other; the number of bytes read is |b| - |rest|.
  method VReadf(kinds: seq<Kind>, b: bytes) returns (r: Scanned)
    ensures r == Scan(kinds, b)
  {
    var items, rest := [], b;
    for k := 0 to |kinds|
      invariant Scan(kinds, b) == Prepend(items, Scan(kinds[k..], rest))
    {
      assert kinds[k..][1..] == kinds[k + 1..];
      var one := ReadOne(kinds[k], rest);
      match one
      case NoMatch => return NoMatch;
      case AssertFailed => return AssertFailed;
      case Matched(i, rest') =>
        PrependAgain(items, i, Scan(kinds[k + 1..], rest'));
        items, rest := items + i, rest';
    }
    return Matched(items, rest);
  }

  ghost function Prepend(items: seq<Item>, r: Scanned): Scanned {
    if r.Matched? then Matched(items + r.items, r.rest) else r
  }

  lemma PrependAgain(a: seq<Item>, b: seq<Item>, r: Scanned)
    ensures Prepend(a, Prepend(b, r)) == Prepend(a + b, r)
  {
    if r.Matched? { assert a + (b + r.items) == (a + b) + r.items; }
  }

  // One directive, with the digit loop of BufferToUInt64.
  method ReadOne(kind: Kind, b: bytes) returns (r: Scanned)
    ensures r == ScanOne(kind, b)
  {
    match kind
    case KLit(c) =>
      if |b| < 1 || b[0] != c { return NoMatch; }
      return Matched([Lit(c)], b[1..]);
    case KChr =>
      if |b| < 1 { return NoMatch; }
      return Matched([Chr(b[0])], b[1..]);
    case KFlag =>
      if |b| < 1 { return NoMatch; }
      return Matched([Flag(b[0] == LETTER_T)], b[1..]);
    case KU32 =>
      var value, n := BufferToUInt64(b);
      if n < 1 { return NoMatch; }
      return Matched([U32(value % TWO_TO_32)], b[n..]);
    case KU64 =>
      var value, n := BufferToUInt64(b);
      if n < 1 { return NoMatch; }
      return Matched([U64(value)], b[n..]);
    case KText =>
      if |b| < 2 { return AssertFailed; }
      var value, n := BufferToUInt64(b);
      if n < 1 { return NoMatch; }
      var c := b[n..];
      if |c| < 1 || c[0] != COLON { return NoMatch; }
      c := c[1..];
      if |c| < value % TWO_TO_32 { return NoMatch; }
      return Matched([Text(c[..value % TWO_TO_32])], c[value % TWO_TO_32..]);
  }

  // ---- reading what was printed

  // The arguments are in the range of their C types.
  predicate Fits(i: Item) {
    match i
    case U32(n) => n < TWO_TO_32
    case U64(n) => n < TWO_TO_64
    case Text(s) => |s| < TWO_TO_32
    case Lit(_) => true
    case Chr(_) => true
    case Flag(_) => true
  }

  predicate IsNumber(i: Item) { i.U32? || i.U64? }

  predicate NoDigitFirst(b: bytes) { b == [] || !IsDigit(b[0]) }

  predicate StartsWithoutDigit(i: Item) {
    match i
    case Lit(b) => !IsDigit(b)
    case Chr(c) => !IsDigit(c)
    case Flag(_) => true
    case U32(_) => false
    case U64(_) => false
    case Text(_) => false
  }

  // Something other than a digit follows item k if it is a number.
  predicate Followed(items: seq<Item>, rest: bytes, k: nat)
    requires k < |items|
  {
    IsNumber(items[k]) ==> if k + 1 < |items| then StartsWithoutDigit(items[k + 1]) else NoDigitFirst(rest)
  }

  predicate Separated(items: seq<Item>, rest: bytes) {
    forall k :: 0 <= k < |items| ==> Followed(items, rest, k)
  }

  lemma SmallNumber(n: nat)
    requires n < TWO_TO_32
    ensures n % TWO_TO_64 % TWO_TO_32 == n
  {}

  lemma NumberReads(n: nat, rest: bytes)
    requires NoDigitFirst(rest)
    ensures DigitCount(Digits(n) + rest) == |Digits(n)|
    ensures (Digits(n) + rest)[..|Digits(n)|] == Digits(n) && (Digits(n) + rest)[|Digits(n)|..] == rest
    ensures Value(Digits(n)) == n
  {
    DigitCountPrefix(Digits(n), rest);
    ValueOfDigits(n);
  }

  lemma Assoc4(a: bytes, b: bytes, c: bytes, d: bytes)
    ensures a + b + c + d == a + (b + (c + d))
  {}

  lemma TextReads(s: bytes, rest: bytes)
    requires |s| < TWO_TO_32
    ensures ScanOne(KText, Digits(|s|) + ([COLON] + (s + rest))) == Matched([Text(s)], rest)
  {
    var d, c := Digits(|s|), [COLON] + (s + rest);
    NumberReads(|s|, c);
    hide Digits, DigitCount, Value, IsDigit;
    assert c[1..] == s + rest;
    assert (s + rest)[..|s|] == s && (s + rest)[|s|..] == rest;
    SmallNumber(|s|);
    assert |d + c| >= 2;
  }

  lemma OneRoundTrip(i: Item, rest: bytes)
    requires Fits(i) && (IsNumber(i) ==> NoDigitFirst(rest))
    ensures ScanOne(KindOf(i), ItemText(i) + rest) == Matched([i], rest)
  {
    if i.Text? {
      hide ScanOne, Digits;
      Assoc4(Digits(|i.s|), [COLON], i.s, rest);
      TextReads(i.s, rest);
    } else if IsNumber(i) {
      NumberReads(i.n, rest);
      hide Digits, DigitCount, Value, IsDigit;
      assert i.n % TWO_TO_64 == i.n && (i.U32? ==> i.n % TWO_TO_32 == i.n);
    }
  }

  // Main result: reading with the same format recovers every argument and consumes exactly what
  // was printed.
  lemma {:induction false} RoundTrip(items: seq<Item>, rest: bytes)
    requires (forall i :: i in items ==> Fits(i)) && Separated(items, rest)
    ensures Scan(Kinds(items), Render(items, rest)) == Matched(items, rest)
  {
    hide ScanOne, ItemText, KindOf, Fits, Separated, NoDigitFirst, IsNumber;
    if items == [] {
      assert Kinds(items) == [];
    } else {
      var more := items[1..];
      assert Kinds(items)[1..] == Kinds(more) && Kinds(items)[0] == KindOf(items[0]);
      SeparatedTail(items, rest);
      RoundTrip(more, rest);
      OneRoundTrip(items[0], Render(more, rest));
      assert items == [items[0]] + more;
    }
  }

  lemma SeparatedTail(items: seq<Item>, rest: bytes)
    requires items != [] && Separated(items, rest)
    ensures Separated(items[1..], rest)
    ensures IsNumber(items[0]) ==> NoDigitFirst(Render(items[1..], rest))
  {
    var more := items[1..];
    forall k | 0 <= k < |more| ensures Followed(more, rest, k) {
      assert Followed(items, rest, k + 1);
    }
    if |items| > 1 && IsNumber(items[0]) {
      assert Followed(items, rest, 0);
      assert more[0] == items[1] && Render(more, rest)[0] == ItemText(items[1])[0];
    } else {
      assert Followed(items, rest, 0);
    }
  }
}
