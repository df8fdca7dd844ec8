// The 24-bit checksum of a packet core: generator 0x864CFB, initial value zero (gCRC24A of
// section 5.1.1 of 3GPP TS 36.212), computed through a table of 256 words.
// Models the table and crc24Hex of internal/diddecrypt/mask176.go. A machine word is the
// sequence of its bits, most significant first, so that words are polynomials over GF(2).
module Crc24 {
  type Bits = seq<bool>

  const DEGREE := 24

  function Zeros(n: nat): (z: Bits)
    ensures |z| == n && forall i | 0 <= i < n :: !z[i]
  {
    seq(n, _ => false)
  }

  function Xor(a: Bits, b: Bits): (c: Bits)
    requires |a| == |b|
    ensures |c| == |a| && forall i | 0 <= i < |a| :: c[i] == (a[i] != b[i])
  {
    seq(|a|, i requires 0 <= i < |a| => a[i] != b[i])
  }

  // 0x864CFB; the leading coefficient of x^24 is implicit.
  const GENERATOR: Bits := [
    true, false, false, false, false, true, true, false,
    false, true, false, false, true, true, false, false,
    true, true, true, true, true, false, true, true]

  // ---- the reference: long division by the generator ----

  function SubtractIfLeading(d: Bits): (rest: Bits)
    requires |d| > DEGREE
    ensures |rest| == |d| - 1
  {
    if d[0] then Xor(d[1..DEGREE + 1], GENERATOR) + d[DEGREE + 1..] else d[1..]
  }

  function Remainder(dividend: Bits): (r: Bits)
    requires |dividend| >= DEGREE
    ensures |r| == DEGREE
    decreases |dividend|
  {
    if |dividend| == DEGREE then dividend else Remainder(SubtractIfLeading(dividend))
  }

  // The checksum of a message M(x) is M(x) x^24 mod G(x).
  function Crc(message: Bits): (r: Bits)
    ensures |r| == DEGREE
  {
    Remainder(message + Zeros(DEGREE))
  }

  // ---- its algebra ----

  lemma {:induction false} RemainderLinear(a: Bits, b: Bits)
    requires |a| == |b| >= DEGREE
    ensures Remainder(Xor(a, b)) == Xor(Remainder(a), Remainder(b))
    decreases |a|
  {
    if |a| > DEGREE {
      assert SubtractIfLeading(Xor(a, b)) == Xor(SubtractIfLeading(a), SubtractIfLeading(b));
      RemainderLinear(SubtractIfLeading(a), SubtractIfLeading(b));
    }
  }

  // Dividing a prefix first changes nothing.
  lemma {:induction false} RemainderOfPrefix(d: Bits, more: Bits)
    requires |d| >= DEGREE
    ensures Remainder(d + more) == Remainder(Remainder(d) + more)
    decreases |d|
  {
    if |d| > DEGREE {
      assert SubtractIfLeading(d + more) == SubtractIfLeading(d) + more;
      RemainderOfPrefix(SubtractIfLeading(d), more);
    }
  }

  lemma {:induction false} LeadingZeros(n: nat, d: Bits)
    requires |d| >= DEGREE
    ensures Remainder(Zeros(n) + d) == Remainder(d)
    decreases n
  {
    if n == 0 {
      assert Zeros(0) + d == d;
    } else {
      assert SubtractIfLeading(Zeros(n) + d) == Zeros(n - 1) + d;
      LeadingZeros(n - 1, d);
    }
  }

  lemma RemainderIsSelf(d: Bits)
    requires |d| == DEGREE
    ensures Remainder(d) == d
  {}

  predicate IsZero(d: Bits) { forall i | 0 <= i < |d| :: !d[i] }

  lemma ZeroIsZeros(d: Bits)
    ensures IsZero(d) <==> d == Zeros(|d|)
  {}

  // G(x) has a constant term, so multiplying by x never makes a remainder vanish.
  lemma {:induction false} NonZeroStays(d: Bits, n: nat)
    requires |d| == DEGREE
    ensures IsZero(Remainder(d + Zeros(n))) <==> IsZero(d)
    decreases n
  {
    if n == 0 {
      assert d + Zeros(0) == d;
    } else {
      var next := SubtractIfLeading(d + Zeros(1));
      assert SubtractIfLeading(d + Zeros(n)) == next + Zeros(n - 1);
      assert (d + Zeros(1))[25..] == [];
      assert d[0] ==> next[23];
      assert !d[0] ==> forall i | 1 <= i < 24 :: next[i - 1] == d[i];
      assert !d[0] ==> !next[23];
      NonZeroStays(next, n - 1);
    }
  }

  lemma XorIsZero(a: Bits, b: Bits)
    requires |a| == |b|
    ensures IsZero(Xor(a, b)) <==> a == b
  {
    if a != b {
      var i :| 0 <= i < |a| && a[i] != b[i];
      assert Xor(a, b)[i];
    }
  }

  // Two messages of any length that differ only inside 24 consecutive bits, hence inside three
  // consecutive bytes, have different checksums.
  lemma BurstChangesCrc(before: Bits, x: Bits, y: Bits, after: Bits)
    requires |x| == |y| <= DEGREE && x != y
    ensures Crc(before + x + after) != Crc(before + y + after)
  {
    hide Remainder, SubtractIfLeading;
    var a, b := before + x + after + Zeros(DEGREE), before + y + after + Zeros(DEGREE);
    var n := |x| + |after|;
    var tail := Xor(x, y) + Zeros(|after| + DEGREE);
    assert Xor(a, b) == Zeros(|before|) + tail;
    RemainderLinear(a, b);
    LeadingZeros(|before|, tail);
    var front := tail[..DEGREE];
    assert tail == front + Zeros(n);
    NonZeroStays(front, n);
    var i :| 0 <= i < |x| && x[i] != y[i];
    assert front[i];
    XorIsZero(Remainder(a), Remainder(b));
  }

  lemma BurstUnzeroesCrc(before: Bits, x: Bits, y: Bits, after: Bits)
    requires |x| == |y| <= DEGREE && x != y
    requires IsZero(Crc(before + x + after))
    ensures !IsZero(Crc(before + y + after))
  {
    BurstChangesCrc(before, x, y, after);
    ZeroIsZeros(Crc(before + x + after));
    ZeroIsZeros(Crc(before + y + after));
  }

  // A core is a body followed by three check bytes; its checksum is zero exactly when those
  // bytes are the checksum of the body.
  lemma CoreCrcZeroIff(body: Bits, check: Bits)
    requires |check| == DEGREE
    ensures IsZero(Crc(body + check)) <==> check == Crc(body)
  {
    var sent := body + check;
    RemainderOfPrefix(sent, Zeros(DEGREE));
    NonZeroStays(Remainder(sent), DEGREE);
    var padded := body + Zeros(DEGREE);
    assert sent == Xor(padded, Zeros(|body|) + check);
    RemainderLinear(padded, Zeros(|body|) + check);
    LeadingZeros(|body|, check);
    assert Remainder(sent) == Xor(Crc(body), check);
    XorIsZero(Crc(body), check);
  }

  // ---- 32-bit words ----

  predicate IsWord(w: Bits) { |w| == 32 }

  function ShiftLeft(w: Bits, n: nat): (s: Bits)
    requires n <= |w|
    ensures |s| == |w|
  {
    w[n..] + Zeros(n)
  }

  function ShiftRight(w: Bits, n: nat): (s: Bits)
    requires n <= |w|
    ensures |s| == |w|
  {
    Zeros(n) + w[..|w| - n]
  }

  // w & 0xFFFFFF
  function Low24(w: Bits): (s: Bits)
    requires IsWord(w)
    ensures IsWord(s)
  {
    Zeros(8) + w[8..]
  }

  // The number written by bits, and back.
  function Value(bits: Bits): nat {
    if bits == [] then 0 else 2 * Value(bits[..|bits| - 1]) + if bits[|bits| - 1] then 1 else 0
  }

  function BitsOf(n: nat, width: nat): (bits: Bits)
    ensures |bits| == width
  {
    if width == 0 then [] else BitsOf(n / 2, width - 1) + [n % 2 == 1]
  }

  function Pow2(n: nat): nat { if n == 0 then 1 else 2 * Pow2(n - 1) }

  lemma {:induction false} BitsOfValue(bits: Bits)
    ensures BitsOf(Value(bits), |bits|) == bits && Value(bits) < Pow2(|bits|)
  {
    if bits != [] {
      var init := bits[..|bits| - 1];
      BitsOfValue(init);
      assert Value(bits) / 2 == Value(init);
      assert bits == init + [bits[|bits| - 1]];
    }
  }

  lemma {:induction false} ValueOfBits(n: nat, width: nat)
    requires n < Pow2(width)
    ensures Value(BitsOf(n, width)) == n
  {
    if width > 0 {
      ValueOfBits(n / 2, width - 1);
      assert BitsOf(n, width)[..width - 1] == BitsOf(n / 2, width - 1);
    }
  }

  lemma OctetValue(octet: Bits)
    requires |octet| == 8
    ensures Value(octet) < 256 && BitsOf(Value(octet), 8) == octet
  {
    BitsOfValue(octet);
    assert Pow2(8) == 2 * (2 * (2 * (2 * Pow2(4))));
    assert Pow2(4) == 2 * (2 * (2 * (2 * Pow2(0))));
  }

  // ---- known answers ----

  lemma ValueSnoc(bits: Bits, bit: bool)
    ensures Value(bits + [bit]) == 2 * Value(bits) + if bit then 1 else 0
  {
    assert (bits + [bit])[..|bits|] == bits;
  }

  lemma ValueOfFour(bits: Bits, a: bool, b: bool, c: bool, d: bool)
    ensures Value(bits + [a, b, c, d])
         == 16 * Value(bits) + (if a then 8 else 0) + (if b then 4 else 0) + (if c then 2 else 0) + if d then 1 else 0
  {
    hide Value;
    ValueSnoc(bits, a);
    ValueSnoc(bits + [a], b);
    ValueSnoc(bits + [a] + [b], c);
    ValueSnoc(bits + [a] + [b] + [c], d);
    assert bits + [a] + [b] + [c] + [d] == bits + [a, b, c, d];
  }

  lemma GeneratorValue()
    ensures Value(GENERATOR) == 0x864CFB
  {
    hide Value;
    var g := GENERATOR;
    assert Value([]) == 0 by {
      ValueNone();
    }
    ValueOfFour([], g[0], g[1], g[2], g[3]);
    ValueOfFour(g[..4], g[4], g[5], g[6], g[7]);
    ValueOfFour(g[..8], g[8], g[9], g[10], g[11]);
    ValueOfFour(g[..12], g[12], g[13], g[14], g[15]);
    ValueOfFour(g[..16], g[16], g[17], g[18], g[19]);
    ValueOfFour(g[..20], g[20], g[21], g[22], g[23]);
    assert g[..4] == [] + [g[0], g[1], g[2], g[3]] && g[..8] == g[..4] + [g[4], g[5], g[6], g[7]];
    assert g[..12] == g[..8] + [g[8], g[9], g[10], g[11]] && g[..16] == g[..12] + [g[12], g[13], g[14], g[15]];
    assert g[..20] == g[..16] + [g[16], g[17], g[18], g[19]] && g == g[..20] + [g[20], g[21], g[22], g[23]];
  }

  lemma ValueNone()
    ensures Value([]) == 0
  {}

  lemma OneBits()
    ensures BitsOf(1, 8) == Zeros(7) + [true]
  {
    assert BitsOf(1, 1) == [true] by {
      assert BitsOf(0, 0) == [];
    }
    assert Pow2(1) == 2 * Pow2(0);
    LeadingBitsZero(1, 1, 7);
  }

  // The checksum of the byte 01 is the remainder of x^24, so it is the polynomial itself.
  lemma OneGivesGenerator()
    ensures Crc(BitsOf(1, 8)) == GENERATOR
  {
    hide BitsOf;
    OneBits();
    var d := [true] + Zeros(DEGREE);
    assert BitsOf(1, 8) + Zeros(DEGREE) == Zeros(7) + d;
    LeadingZeros(7, d);
    assert d[1..DEGREE + 1] == Zeros(DEGREE) && d[DEGREE + 1..] == [];
    assert SubtractIfLeading(d) == GENERATOR;
  }

  // With linearity this fixes the polynomial; it is also the table's entry for 1.
  lemma CrcOfOne()
    ensures Value(Crc(BitsOf(1, 8))) == 0x864CFB
  {
    OneGivesGenerator();
    GeneratorValue();
  }

  // ---- the table and the table-driven loop ----

  predicate IsTable(table: seq<Bits>) {
    |table| == 256 && forall i | 0 <= i < 256 :: table[i] == Zeros(8) + Crc(BitsOf(i, 8))
  }

  // One pass of the table's inner loop, on the low 24 bits of a word.
  lemma TableStep(w: Bits, next: Bits, n: nat)
    requires IsWord(w) && IsWord(next) && n > 0
    requires next == if w[8] then Xor(ShiftLeft(w, 1), Zeros(8) + GENERATOR) else ShiftLeft(w, 1)
    ensures Remainder(w[8..] + Zeros(n)) == Remainder(next[8..] + Zeros(n - 1))
  {
    hide Remainder;
    var d := w[8..] + Zeros(n);
    var shifted := w[9..] + [false];
    assert ShiftLeft(w, 1)[8..] == shifted;
    ShiftedIn(w, n);
    if w[8] {
      assert next[8..] == Xor(shifted, GENERATOR);
    }
    RemainderStep(d);
  }

  lemma RemainderStep(d: Bits)
    requires |d| > DEGREE
    ensures Remainder(d) == Remainder(SubtractIfLeading(d))
  {}

  lemma ShiftedIn(w: Bits, n: nat)
    requires IsWord(w) && n > 0
    ensures
      var d, shifted := w[8..] + Zeros(n), w[9..] + [false];
      |d| > DEGREE && d[0] == w[8] && d[1..25] == shifted && d[25..] == Zeros(n - 1) && d[1..] == shifted + Zeros(n - 1)
  {}

  predicate Building(w: Bits, left: nat, i: nat) {
    IsWord(w) && Remainder(w[8..] + Zeros(left)) == Crc(BitsOf(i, 8))
  }

  lemma BuildingStarts(i: nat)
    requires i < 256
    ensures Building(ShiftLeft(BitsOf(i, 32), 16), 8, i)
  {
    WordOfByte(i);
    assert ShiftLeft(BitsOf(i, 32), 16)[8..] + Zeros(8) == BitsOf(i, 8) + Zeros(DEGREE);
  }

  lemma BuildingEnds(w: Bits, i: nat)
    requires Building(w, 0, i)
    ensures Low24(w) == Zeros(8) + Crc(BitsOf(i, 8))
  {
    assert w[8..] + Zeros(0) == w[8..];
  }

  // The table's entry for one byte: the inner loop.
  method TableWord(i: nat) returns (crc: Bits)
    requires i < 256
    ensures crc == Zeros(8) + Crc(BitsOf(i, 8))
  {
    BuildingStarts(i);
    crc := ShiftLeft(BitsOf(i, 32), 16);
    for j := 0 to 8
      invariant Building(crc, 8 - j, i)
    {
      ghost var before := crc;
      // Bits above the 24th are not cleared here; they only build up.
      if crc[8] {
        crc := Xor(ShiftLeft(crc, 1), Zeros(8) + GENERATOR);
      } else {
        crc := ShiftLeft(crc, 1);
      }
      TableStep(before, crc, 8 - j);
    }
    BuildingEnds(crc, i);
    crc := Low24(crc);
  }

  method BuildTable() returns (table: array<Bits>)
    ensures fresh(table) && IsTable(table[..])
  {
    table := new Bits[256](_ => Zeros(32));
    for i := 0 to 256
      invariant forall k | 0 <= k < i :: table[k] == Zeros(8) + Crc(BitsOf(k, 8))
    {
      table[i] := TableWord(i);
    }
  }

  lemma {:induction false} LeadingBitsZero(n: nat, width: nat, extra: nat)
    requires n < Pow2(width)
    ensures BitsOf(n, extra + width) == Zeros(extra) + BitsOf(n, width)
    decreases width
  {
    if width == 0 {
      ZeroBits(extra);
      assert Zeros(extra) + [] == Zeros(extra);
    } else {
      LeadingBitsZero(n / 2, width - 1, extra);
      assert Zeros(extra) + (BitsOf(n / 2, width - 1) + [n % 2 == 1])
          == Zeros(extra) + BitsOf(n / 2, width - 1) + [n % 2 == 1];
    }
  }

  lemma {:induction false} ZeroBits(width: nat)
    ensures BitsOf(0, width) == Zeros(width)
  {
    if width > 0 {
      ZeroBits(width - 1);
      assert Zeros(width) == Zeros(width - 1) + [false];
    }
  }

  lemma WordOfByte(i: nat)
    requires i < 256
    ensures BitsOf(i, 32) == Zeros(24) + BitsOf(i, 8)
  {
    assert Pow2(8) == 2 * (2 * (2 * (2 * Pow2(4))));
    assert Pow2(4) == 2 * (2 * (2 * (2 * Pow2(0))));
    LeadingBitsZero(i, 8, 24);
  }

  // What the loop over the bytes does to the remainder for one more byte.
  lemma ByteStep(message: Bits, octet: Bits)
    requires |octet| == 8
    ensures Crc(message + octet) == Xor(Crc(message)[8..] + Zeros(8), Crc(Xor(Crc(message)[..8], octet)))
  {
    hide Remainder, SubtractIfLeading;
    var r, n := Crc(message), |message|;
    // The message contributes the remainder so far, the new byte only itself.
    SplitOffByte(message, octet);
    // Split the sum into the byte that leaves the register and the 24 bits that stay.
    var stays, lead := r[8..] + Zeros(8), Xor(r[..8], octet);
    assert Xor(r + Zeros(8), octet + Zeros(DEGREE)) == Xor(Zeros(8) + stays, lead + Zeros(DEGREE));
    RemainderLinear(r + Zeros(8), octet + Zeros(DEGREE));
    RemainderLinear(Zeros(8) + stays, lead + Zeros(DEGREE));
    LeadingZeros(8, stays);
    RemainderIsSelf(stays);
  }

  lemma SplitOffByte(message: Bits, octet: Bits)
    requires |octet| == 8
    ensures Crc(message + octet) == Xor(Remainder(Crc(message) + Zeros(8)), Remainder(octet + Zeros(DEGREE)))
  {
    var sofar := message + Zeros(DEGREE) + Zeros(8);
    var new_ := Zeros(|message|) + (octet + Zeros(DEGREE));
    assert message + octet + Zeros(DEGREE) == Xor(sofar, new_);
    RemainderLinear(sofar, new_);
    RemainderOfPrefix(message + Zeros(DEGREE), Zeros(8));
    LeadingZeros(|message|, octet + Zeros(DEGREE));
  }
}
