// The masking and interleaving of 176-byte packet cores written in hexadecimal, and the normaliser
// that recognises by checksum which side of the transform a packet is on.
// Models internal/diddecrypt/mask176.go.
module Mask176 {
  import opened Bytes
  import opened Crc24
  import opened InterleaveTables
  import opened Text

  const CORE_BYTES := 176
  const CORE_CHARS := 352
  const LONG_CHARS := 360

  // ---- hexadecimal ----

  predicate IsLowerHexChar(c: char) { '0' <= c <= '9' || 'a' <= c <= 'f' }

  predicate IsLowerHex(s: string) { forall i | 0 <= i < |s| :: IsLowerHexChar(s[i]) }

  predicate IsHexChar(c: char) { '0' <= c <= '9' || 'a' <= c <= 'f' || 'A' <= c <= 'F' }

  // hexToNibble: every other character maps to zero.
  function HexValue(c: char): nat {
    if '0' <= c <= '9' then (c - '0') as nat
    else if 'a' <= c <= 'f' then (c - 'a') as nat + 10
    else if 'A' <= c <= 'F' then (c - 'A') as nat + 10
    else 0
  }

  // nibbleToHex
  function HexDigit(n: nat): char {
    if n < 10 then '0' + n as char else if n < 16 then 'a' + (n - 10) as char else '0'
  }

  lemma DigitRoundTrip(c: char, n: nat)
    ensures IsLowerHexChar(c) ==> HexDigit(HexValue(c)) == c
    ensures n < 16 ==> HexValue(HexDigit(n)) == n
    ensures IsLowerHexChar(HexDigit(n)) && HexValue(c) < 16
  {}

  // Digits are the usual ones, capitals read like small letters.
  lemma HexDigits(n: nat)
    requires n < 16
    ensures HexDigit(n) == "0123456789abcdef"[n]
    ensures HexValue("0123456789abcdef"[n]) == n && HexValue("0123456789ABCDEF"[n]) == n
  {}

  function Nibble(c: char): (bits: Bits)
    ensures |bits| == 4
  {
    BitsOf(HexValue(c), 4)
  }

  function HexChar(bits: Bits): char { HexDigit(Value(bits)) }

  lemma CharRoundTrip(c: char)
    requires IsLowerHexChar(c)
    ensures HexChar(Nibble(c)) == c
  {
    DigitRoundTrip(c, 0);
    SixteenValues();
    ValueOfBits(HexValue(c), 4);
  }

  lemma NibbleRoundTrip(bits: Bits)
    requires |bits| == 4
    ensures IsLowerHexChar(HexChar(bits)) && Nibble(HexChar(bits)) == bits
  {
    SixteenValues();
    BitsOfValue(bits);
    DigitRoundTrip('0', Value(bits));
  }

  lemma SixteenValues()
    ensures Pow2(4) == 16
  {
    assert Pow2(4) == 2 * (2 * (2 * (2 * Pow2(0))));
  }

  // The bits a hexadecimal string stands for.
  function HexBits(hex: string): (bits: Bits)
    ensures |bits| == 4 * |hex|
  {
    if hex == "" then [] else HexBits(hex[..|hex| - 1]) + Nibble(hex[|hex| - 1])
  }

  lemma HexBitsStep(hex: string)
    ensures HexBits(hex) == if hex == "" then [] else HexBits(hex[..|hex| - 1]) + Nibble(hex[|hex| - 1])
  {}

  lemma {:induction false} HexBitsAppend(a: string, b: string)
    ensures HexBits(a + b) == HexBits(a) + HexBits(b)
    decreases |b|
  {
    hide HexBits, Nibble;
    HexBitsStep(b);
    if b == "" {
      assert a + b == a;
    } else {
      var init, last := b[..|b| - 1], b[|b| - 1];
      HexBitsAppend(a, init);
      HexBitsStep(a + b);
      assert (a + b)[..|a + b| - 1] == a + init && (a + b)[|a + b| - 1] == last;
      assert HexBits(a) + HexBits(init) + Nibble(last) == HexBits(a) + (HexBits(init) + Nibble(last));
    }
  }

  function Octet(hex: string, i: nat): (octet: Bits)
    requires 2 * i + 1 < |hex|
    ensures |octet| == 8
  {
    Nibble(hex[2 * i]) + Nibble(hex[2 * i + 1])
  }

  predicate IsCore(core: seq<Bits>) {
    |core| == CORE_BYTES && forall i | 0 <= i < CORE_BYTES :: |core[i]| == 8
  }

  function Octets(hex: string): (core: seq<Bits>)
    requires |hex| == CORE_CHARS
    ensures IsCore(core)
  {
    seq(CORE_BYTES, i requires 0 <= i < CORE_BYTES => Octet(hex, i))
  }

  function HexAt(core: seq<Bits>, k: nat): char
    requires IsCore(core) && k < CORE_CHARS
  {
    HexChar(if k % 2 == 0 then core[k / 2][..4] else core[k / 2][4..])
  }

  function HexOf(core: seq<Bits>): (hex: string)
    requires IsCore(core)
    ensures |hex| == CORE_CHARS
    ensures forall k | 0 <= k < CORE_CHARS :: hex[k] == HexAt(core, k)
  {
    seq(CORE_CHARS, k requires 0 <= k < CORE_CHARS => HexAt(core, k))
  }

  lemma OctetRoundTrip(core: seq<Bits>, i: nat)
    requires IsCore(core) && i < CORE_BYTES
    ensures Octet(HexOf(core), i) == core[i]
    ensures IsLowerHexChar(HexAt(core, 2 * i)) && IsLowerHexChar(HexAt(core, 2 * i + 1))
  {
    NibbleRoundTrip(core[i][..4]);
    NibbleRoundTrip(core[i][4..]);
    assert (2 * i) / 2 == i && (2 * i + 1) / 2 == i;
    assert core[i] == core[i][..4] + core[i][4..];
  }

  lemma OctetsOfHexOf(core: seq<Bits>)
    requires IsCore(core)
    ensures IsLowerHex(HexOf(core)) && Octets(HexOf(core)) == core
  {
    forall k | 0 <= k < CORE_CHARS
      ensures IsLowerHexChar(HexOf(core)[k])
    {
      OctetRoundTrip(core, k / 2);
    }
    forall i | 0 <= i < CORE_BYTES
      ensures Octets(HexOf(core))[i] == core[i]
    {
      OctetRoundTrip(core, i);
    }
  }

  lemma CharOfOctets(hex: string, k: nat)
    requires |hex| == CORE_CHARS && IsLowerHex(hex) && k < CORE_CHARS
    ensures HexAt(Octets(hex), k) == hex[k]
  {
    CharRoundTrip(hex[k]);
    assert Octet(hex, k / 2)[..4] == Nibble(hex[2 * (k / 2)]);
    assert Octet(hex, k / 2)[4..] == Nibble(hex[2 * (k / 2) + 1]);
  }

  lemma HexOfOctets(hex: string)
    requires |hex| == CORE_CHARS && IsLowerHex(hex)
    ensures HexOf(Octets(hex)) == hex
  {
    forall k | 0 <= k < CORE_CHARS
      ensures HexOf(Octets(hex))[k] == hex[k]
    {
      CharOfOctets(hex, k);
    }
  }

  // ---- the transform ----

  // The tables: each array is filled once when the program starts and never changes.
  datatype Tables = Tables(interleave: seq<nat>, reverse: seq<nat>, mask: seq<Bits>)

  predicate MutuallyInverse(p: seq<nat>, q: seq<nat>) {
    && |p| == |q| == CORE_BYTES
    && (forall i | 0 <= i < CORE_BYTES :: p[i] < CORE_BYTES && q[p[i]] == i)
    && (forall i | 0 <= i < CORE_BYTES :: q[i] < CORE_BYTES && p[q[i]] == i)
  }

  predicate Sound(t: Tables) {
    && MutuallyInverse(t.interleave, t.reverse)
    && |t.mask| == CORE_BYTES && forall i | 0 <= i < CORE_BYTES :: |t.mask[i]| == 8
  }

  function ProgramTables(): Tables {
    Tables(
      seq(CORE_BYTES, i requires 0 <= i < CORE_BYTES => Interleave(i)),
      seq(CORE_BYTES, i requires 0 <= i < CORE_BYTES => Inverse(i)),
      seq(CORE_BYTES, i requires 0 <= i < CORE_BYTES => BitsOf(MaskByte(i), 8)))
  }

  lemma ProgramTablesSound()
    ensures Sound(ProgramTables())
  {
    forall i | 0 <= i < CORE_BYTES
      ensures Interleave(i) < CORE_BYTES && Inverse(Interleave(i)) == i
      ensures Inverse(i) < CORE_BYTES && Interleave(Inverse(i)) == i
    {
      InterleaveIsPermutation(i);
    }
  }

  // reverseInterleave176, built by a loop over the interleaving.
  method ReverseInterleave(interleave: seq<nat>, ghost reverse: seq<nat>) returns (rev: array<nat>)
    requires MutuallyInverse(interleave, reverse)
    ensures fresh(rev) && rev[..] == reverse
  {
    rev := new nat[CORE_BYTES](_ => 0);
    for i := 0 to CORE_BYTES
      invariant forall k | 0 <= k < i :: rev[interleave[k]] == k
    {
      assert forall k | 0 <= k < i :: reverse[interleave[k]] == k != i;
      rev[interleave[i]] := i;
    }
    forall j | 0 <= j < CORE_BYTES
      ensures rev[j] == reverse[j]
    {
      assert interleave[reverse[j]] == j;
    }
  }

  function Decrypted(t: Tables, core: seq<Bits>): (d: seq<Bits>)
    requires Sound(t) && IsCore(core)
    ensures IsCore(d)
  {
    seq(CORE_BYTES, j requires 0 <= j < CORE_BYTES => Xor(core[t.reverse[j]], t.mask[t.reverse[j]]))
  }

  function Encrypted(t: Tables, core: seq<Bits>): (e: seq<Bits>)
    requires Sound(t) && IsCore(core)
    ensures IsCore(e)
  {
    seq(CORE_BYTES, i requires 0 <= i < CORE_BYTES => Xor(core[t.interleave[i]], t.mask[i]))
  }

  lemma TransformInverse(t: Tables, core: seq<Bits>)
    requires Sound(t) && IsCore(core)
    ensures Decrypted(t, Encrypted(t, core)) == core
    ensures Encrypted(t, Decrypted(t, core)) == core
  {
    forall i | 0 <= i < CORE_BYTES
      ensures Decrypted(t, Encrypted(t, core))[i] == core[i]
      ensures Encrypted(t, Decrypted(t, core))[i] == core[i]
    {
      assert t.interleave[t.reverse[i]] == i && t.reverse[t.interleave[i]] == i;
    }
  }

  function Normalize176(t: Tables, hex: string, toDecrypted: bool): string
    requires Sound(t)
  {
    if |hex| != CORE_CHARS then hex
    else HexOf(if toDecrypted then Decrypted(t, Octets(hex)) else Encrypted(t, Octets(hex)))
  }

  // The two directions undo each other on lowercase hexadecimal of any length.
  lemma DirectionsInverse(t: Tables, hex: string, toDecrypted: bool)
    requires Sound(t) && IsLowerHex(hex)
    ensures IsLowerHex(Normalize176(t, hex, toDecrypted)) && |Normalize176(t, hex, toDecrypted)| == |hex|
    ensures Normalize176(t, Normalize176(t, hex, toDecrypted), !toDecrypted) == hex
  {
    if |hex| == CORE_CHARS {
      var core := Octets(hex);
      var image := if toDecrypted then Decrypted(t, core) else Encrypted(t, core);
      OctetsOfHexOf(image);
      TransformInverse(t, core);
      HexOfOctets(hex);
    }
  }

  // Byte by byte: towards the decrypted side byte i is unmasked and goes to its interleaved place,
  // towards the encrypted side it comes from there and is masked.
  predicate Transformed(t: Tables, hex: string, r: string, toDecrypted: bool, i: nat)
    requires Sound(t) && |hex| == |r| == CORE_CHARS && i < CORE_BYTES
  {
    if toDecrypted then Octet(r, t.interleave[i]) == Xor(Octet(hex, i), t.mask[i])
    else Octet(r, i) == Xor(Octet(hex, t.interleave[i]), t.mask[i])
  }

  lemma TransformBytes(t: Tables, hex: string, toDecrypted: bool, i: nat)
    requires Sound(t) && |hex| == CORE_CHARS && i < CORE_BYTES
    ensures Transformed(t, hex, Normalize176(t, hex, toDecrypted), toDecrypted, i)
  {
    hide Octet, Nibble;
    var core := Octets(hex);
    var j := t.interleave[i];
    if toDecrypted {
      OctetRoundTrip(Decrypted(t, core), j);
    } else {
      OctetRoundTrip(Encrypted(t, core), i);
    }
  }

  method Normalize176Hex(t: Tables, hex: string, toDecrypted: bool) returns (r: string)
    requires Sound(t)
    ensures r == Normalize176(t, hex, toDecrypted)
    ensures |hex| != 352 ==> r == hex
    ensures |hex| == 352 ==> |r| == 352 && forall i | 0 <= i < 176 :: Transformed(t, hex, r, toDecrypted, i)
  {
    forall i | |hex| == CORE_CHARS && 0 <= i < CORE_BYTES
      ensures Transformed(t, hex, Normalize176(t, hex, toDecrypted), toDecrypted, i)
    {
      TransformBytes(t, hex, toDecrypted, i);
    }
    if |hex| != CORE_CHARS {
      return hex;
    }
    if toDecrypted {
      r := DecryptHex(t, hex);
    } else {
      r := EncryptHex(t, hex);
    }
  }

  // The two digits of one byte are in place.
  predicate Written(hex: string, goal: string, j: nat)
    requires |hex| == |goal| == CORE_CHARS
  {
    j < CORE_BYTES && hex[2 * j] == goal[2 * j] && hex[2 * j + 1] == goal[2 * j + 1]
  }

  predicate Shows(goal: string, j: nat, b: Bits)
    requires |goal| == CORE_CHARS
  {
    j < CORE_BYTES && |b| == 8 && goal[2 * j] == HexChar(b[..4]) && goal[2 * j + 1] == HexChar(b[4..])
  }

  lemma HexOfShows(core: seq<Bits>, j: nat)
    requires IsCore(core) && j < CORE_BYTES
    ensures Shows(HexOf(core), j, core[j])
  {
    assert (2 * j) / 2 == j && (2 * j + 1) / 2 == j;
  }

  method PutByte(result: array<char>, idx: nat, b: Bits, ghost goal: string)
    requires result.Length == |goal| == CORE_CHARS && Shows(goal, idx, b)
    modifies result
    ensures Written(result[..], goal, idx)
    ensures forall j :: Written(old(result[..]), goal, j) ==> Written(result[..], goal, j)
  {
    result[idx * 2] := HexChar(b[..4]);
    result[idx * 2 + 1] := HexChar(b[4..]);
  }

  // First pass towards the decrypted side: unmask every byte in place.
  method Unmask(t: Tables, hex: string) returns (tmp: array<Bits>)
    requires Sound(t) && |hex| == CORE_CHARS
    ensures fresh(tmp) && tmp.Length == CORE_BYTES
    ensures forall k | 0 <= k < CORE_BYTES :: tmp[k] == Xor(Octet(hex, k), t.mask[k])
  {
    tmp := new Bits[CORE_BYTES](_ => []);
    for i := 0 to CORE_BYTES
      invariant forall k | 0 <= k < i :: tmp[k] == Xor(Octet(hex, k), t.mask[k])
    {
      tmp[i] := Xor(Nibble(hex[2 * i]) + Nibble(hex[2 * i + 1]), t.mask[i]);
    }
  }

  // Second pass: scatter the bytes by the interleaving.
  method Scatter(t: Tables, tmp: array<Bits>, ghost goal: string) returns (r: string)
    requires Sound(t) && tmp.Length == CORE_BYTES && |goal| == CORE_CHARS
    requires forall i | 0 <= i < CORE_BYTES :: Shows(goal, t.interleave[i], tmp[i])
    ensures r == goal
  {
    var result := new char[CORE_CHARS](_ => '0');
    for i := 0 to CORE_BYTES
      invariant forall k | 0 <= k < i :: Written(result[..], goal, t.interleave[k])
      modifies result
    {
      PutByte(result, t.interleave[i], tmp[i], goal);
    }
    r := result[..];
    Scattered(t, r, goal);
  }

  method DecryptHex(t: Tables, hex: string) returns (r: string)
    requires Sound(t) && |hex| == CORE_CHARS
    ensures r == HexOf(Decrypted(t, Octets(hex)))
  {
    var tmp := Unmask(t, hex);
    ghost var core := Decrypted(t, Octets(hex));
    forall i | 0 <= i < CORE_BYTES
      ensures Shows(HexOf(core), t.interleave[i], tmp[i])
    {
      HexOfShows(core, t.interleave[i]);
      assert core[t.interleave[i]] == tmp[i];
    }
    r := Scatter(t, tmp, HexOf(core));
  }

  lemma Scattered(t: Tables, hex: string, goal: string)
    requires Sound(t) && |hex| == |goal| == CORE_CHARS
    requires forall k | 0 <= k < CORE_BYTES :: Written(hex, goal, t.interleave[k])
    ensures hex == goal
  {
    forall j | 0 <= j < CORE_BYTES
      ensures Written(hex, goal, j)
    {
      assert t.interleave[t.reverse[j]] == j;
    }
    AllWritten(hex, goal);
  }

  // First pass towards the encrypted side: gather the bytes through the reverse table.
  method Gather(t: Tables, hex: string) returns (tmp: array<Bits>)
    requires Sound(t) && |hex| == CORE_CHARS
    ensures fresh(tmp) && tmp.Length == CORE_BYTES
    ensures forall k | 0 <= k < CORE_BYTES :: tmp[k] == Octet(hex, t.interleave[k])
  {
    tmp := new Bits[CORE_BYTES](_ => []);
    for i := 0 to CORE_BYTES
      invariant forall k | 0 <= k < i :: tmp[t.reverse[k]] == Octet(hex, k)
    {
      assert forall k | 0 <= k < i :: t.interleave[t.reverse[k]] == k != i;
      tmp[t.reverse[i]] := Nibble(hex[2 * i]) + Nibble(hex[2 * i + 1]);
    }
    forall k | 0 <= k < CORE_BYTES
      ensures tmp[k] == Octet(hex, t.interleave[k])
    {
      assert t.reverse[t.interleave[k]] == k;
    }
  }

  // Second pass: mask every byte in place.
  method MaskInPlace(t: Tables, tmp: array<Bits>, ghost goal: string) returns (r: string)
    requires Sound(t) && tmp.Length == CORE_BYTES && |goal| == CORE_CHARS
    requires forall i | 0 <= i < CORE_BYTES :: |tmp[i]| == 8 && Shows(goal, i, Xor(tmp[i], t.mask[i]))
    ensures r == goal
  {
    var result := new char[CORE_CHARS](_ => '0');
    for i := 0 to CORE_BYTES
      invariant forall k | 0 <= k < i :: Written(result[..], goal, k)
      modifies result
    {
      PutByte(result, i, Xor(tmp[i], t.mask[i]), goal);
    }
    r := result[..];
    AllWritten(r, goal);
  }

  method EncryptHex(t: Tables, hex: string) returns (r: string)
    requires Sound(t) && |hex| == CORE_CHARS
    ensures r == HexOf(Encrypted(t, Octets(hex)))
  {
    var tmp := Gather(t, hex);
    ghost var core := Encrypted(t, Octets(hex));
    forall i | 0 <= i < CORE_BYTES
      ensures Shows(HexOf(core), i, Xor(tmp[i], t.mask[i]))
    {
      HexOfShows(core, i);
    }
    r := MaskInPlace(t, tmp, HexOf(core));
  }

  lemma AllWritten(hex: string, goal: string)
    requires |hex| == |goal| == CORE_CHARS
    requires forall j | 0 <= j < CORE_BYTES :: Written(hex, goal, j)
    ensures hex == goal
  {
    forall k | 0 <= k < CORE_CHARS
      ensures hex[k] == goal[k]
    {
      assert Written(hex, goal, k / 2);
    }
  }

  // The table-driven loop computes the checksum of the bits the string stands for.
  method Crc24Hex(table: seq<Bits>, hex: string) returns (crc: Bits)
    requires IsTable(table) && |hex| % 2 == 0
    ensures crc == Zeros(8) + Crc(HexBits(hex))
  {
    hide Crc, HexBits, IsTable;
    crc := Zeros(32);
    CrcOfNothing();
    assert hex[..0] == "";
    var i := 0;
    while i < |hex|
      invariant 0 <= i <= |hex| && i % 2 == 0
      invariant crc == Zeros(8) + Crc(HexBits(hex[..i]))
    {
      var b := Nibble(hex[i]) + Nibble(hex[i + 1]);
      TwoMoreChars(hex, i);
      crc := CrcByte(table, HexBits(hex[..i]), crc, b);
      i := i + 2;
    }
    assert hex[..|hex|] == hex;
  }

  lemma CrcOfNothing()
    ensures Zeros(32) == Zeros(8) + Crc(HexBits(""))
  {
    assert HexBits("") + Zeros(DEGREE) == Zeros(DEGREE);
  }

  lemma TwoMoreChars(hex: string, i: nat)
    requires i + 1 < |hex|
    ensures HexBits(hex[..i + 2]) == HexBits(hex[..i]) + (Nibble(hex[i]) + Nibble(hex[i + 1]))
  {
    assert hex[..i + 2][..i + 1] == hex[..i + 1] && hex[..i + 1][..i] == hex[..i];
  }

  method CrcByte(table: seq<Bits>, ghost message: Bits, crc: Bits, b: Bits) returns (next: Bits)
    requires IsTable(table) && |b| == 8 && crc == Zeros(8) + Crc(message)
    ensures next == Zeros(8) + Crc(message + b)
  {
    hide Crc, Remainder, BitsOf, Value;
    ghost var r := Crc(message);
    var index := Xor(ShiftRight(crc, 16)[24..], b);
    assert ShiftRight(crc, 16)[24..] == r[..8];
    OctetValue(index);
    var entry := table[Value(index)];
    next := Low24(Xor(ShiftLeft(crc, 8), entry));
    ByteStep(message, b);
    assert ShiftLeft(crc, 8)[8..] == r[8..] + Zeros(8);
    assert next[8..] == Crc(message + b);
    assert next == Zeros(8) + next[8..];
  }

  // ---- the normaliser ----

  function LowerChar(c: char): char { if 'A' <= c <= 'Z' then 'a' + (c - 'A') else c }

  // strings.ToLower on the characters that can be part of an accepted packet.
  function Lower(s: string): (t: string)
    ensures |t| == |s|
  {
    seq(|s|, i requires 0 <= i < |s| => LowerChar(s[i]))
  }

  predicate IsHexString(s: string) { forall i | 0 <= i < |s| :: IsHexChar(s[i]) }

  predicate CrcZero(core: string) { IsZero(Crc(HexBits(core))) }

  datatype Packet = Packet(encrypted: string, decrypted: string)

  predicate PacketShape(hex: string) {
    (|hex| == CORE_CHARS || |hex| == LONG_CHARS) && IsHexString(hex)
  }

  function NormalizePacket(t: Tables, raw: string): Option<Packet>
    requires Sound(t)
  {
    var hex := Lower(Trim(raw));
    if !PacketShape(hex) then None
    else
      var core, tail := hex[..CORE_CHARS], hex[CORE_CHARS..];
      var decrypted := Normalize176(t, core, true);
      if CrcZero(core) then Some(Packet(Normalize176(t, core, false) + tail, hex))
      else if CrcZero(decrypted) then Some(Packet(hex, decrypted + tail))
      else None
  }

  method NormalizePacketHex(t: Tables, table: seq<Bits>, raw: string) returns (packet: Option<Packet>)
    requires Sound(t) && IsTable(table)
    ensures packet == NormalizePacket(t, raw)
  {
    var hex := Lower(Trim(raw));
    if (|hex| != CORE_CHARS && |hex| != LONG_CHARS) || !IsHexString(hex) {
      return None;
    }
    var core, tail := hex[..CORE_CHARS], hex[CORE_CHARS..];
    assert core + tail == hex;
    var crc := Crc24Hex(table, core);
    CrcWordZero(crc, core);
    if crc == Zeros(32) {
      var encrypted := Normalize176Hex(t, core, false);
      return Some(Packet(encrypted + tail, core + tail));
    }
    var decryptedCore := Normalize176Hex(t, core, true);
    crc := Crc24Hex(table, decryptedCore);
    CrcWordZero(crc, decryptedCore);
    if crc == Zeros(32) {
      return Some(Packet(core + tail, decryptedCore + tail));
    }
    return None;
  }

  lemma CrcWordZero(crc: Bits, core: string)
    requires crc == Zeros(8) + Crc(HexBits(core))
    ensures crc == Zeros(32) <==> CrcZero(core)
  {
    if crc == Zeros(32) {
      forall i | 0 <= i < DEGREE
        ensures !Crc(HexBits(core))[i]
      {
        assert crc[8 + i] == Crc(HexBits(core))[i];
      }
    }
  }

  lemma LowerHexIsLower(s: string)
    requires IsHexString(Lower(s))
    ensures IsLowerHex(Lower(s))
  {
    forall i | 0 <= i < |s|
      ensures IsLowerHexChar(Lower(s)[i])
    {
      assert IsHexChar(Lower(s)[i]) && Lower(s)[i] == LowerChar(s[i]);
    }
  }

  lemma LowerHexUnchanged(hex: string)
    requires IsLowerHex(hex)
    ensures Lower(Trim(hex)) == hex && IsHexString(hex)
  {
    assert hex != "" ==> !IsSpace(hex[0]) && !IsSpace(hex[|hex| - 1]);
    assert Trim(hex) == hex;
  }

  // What an accepted packet looks like.
  predicate Related(t: Tables, p: Packet)
    requires Sound(t)
  {
    && PacketShape(p.encrypted) && |p.decrypted| == |p.encrypted|
    && IsLowerHex(p.encrypted) && IsLowerHex(p.decrypted)
    && p.decrypted[..CORE_CHARS] == Normalize176(t, p.encrypted[..CORE_CHARS], true)
    && p.encrypted[..CORE_CHARS] == Normalize176(t, p.decrypted[..CORE_CHARS], false)
    && p.encrypted[CORE_CHARS..] == p.decrypted[CORE_CHARS..]
    && CrcZero(p.decrypted[..CORE_CHARS])
  }

  // Capitals become small letters, every other character stays.
  lemma LowerKnown(s: string, i: nat)
    requires i < |s|
    ensures if 'A' <= s[i] <= 'Z' then Lower(s)[i] as int - 'a' as int == s[i] as int - 'A' as int else Lower(s)[i] == s[i]
  {}

  // Only 176 or 180 bytes in hexadecimal digits, of either case, are ever accepted.
  lemma AcceptedShape(t: Tables, raw: string)
    requires Sound(t)
    ensures NormalizePacket(t, raw).Some? ==>
      |Trim(raw)| in {2 * 176, 2 * 180} && forall c | c in Trim(raw) :: '0' <= c <= '9' || 'a' <= c <= 'f' || 'A' <= c <= 'F'
  {
    hide Trim, Normalize176, CrcZero, Sound;
    if NormalizePacket(t, raw).Some? {
      forall i | 0 <= i < |Trim(raw)|
        ensures IsHexChar(Trim(raw)[i])
      {
        assert IsHexChar(Lower(Trim(raw))[i]);
        LowerKnown(Trim(raw), i);
      }
    }
  }

  function NoughtChars(n: nat): (s: string)
    ensures |s| == n && forall i | 0 <= i < n :: s[i] == '0'
  {
    seq(n, _ => '0')
  }

  lemma {:induction false} NoughtBits(n: nat)
    ensures HexBits(NoughtChars(n)) == Zeros(4 * n)
  {
    if n > 0 {
      NoughtBits(n - 1);
      assert NoughtChars(n)[..n - 1] == NoughtChars(n - 1);
      ZeroBits(4);
      assert Zeros(4 * n) == Zeros(4 * (n - 1)) + Zeros(4);
    }
  }

  lemma NibbleBits(c: char, a: bool, b: bool, e: bool, d: bool)
    requires HexValue(c) == (if a then 8 else 0) + (if b then 4 else 0) + (if e then 2 else 0) + if d then 1 else 0
    ensures Nibble(c) == [a, b, e, d]
  {
    SixteenValues();
    ValueOfFour([], a, b, e, d);
    assert [] + [a, b, e, d] == [a, b, e, d];
    BitsOfValue([a, b, e, d]);
  }

  // A packet known by heart: 172 bytes of zero, then 01 and its checksum 86 4C FB.
  function KnownCore(): string { NoughtChars(344) + "01" + "864cfb" }

  lemma CheckDigits()
    ensures HexBits("864cfb") == GENERATOR
  {
    hide HexBits, Nibble;
    NibbleBits('8', true, false, false, false);
    NibbleBits('6', false, true, true, false);
    NibbleBits('4', false, true, false, false);
    NibbleBits('c', true, true, false, false);
    NibbleBits('f', true, true, true, true);
    NibbleBits('b', true, false, true, true);
    HexBitsOfPair('8', '6');
    HexBitsOfPair('4', 'c');
    HexBitsOfPair('f', 'b');
    HexBitsOfThree("86", "4c", "fb");
    assert "86" + "4c" + "fb" == "864cfb";
  }

  lemma HexBitsOfPair(c: char, d: char)
    ensures HexBits([c, d]) == Nibble(c) + Nibble(d)
  {
    assert [c, d][..1] == [c] && [c][..0] == "";
    assert HexBits([c]) == [] + Nibble(c);
  }

  lemma KnownCoreIsDecrypted(t: Tables)
    requires Sound(t)
    ensures NormalizePacket(t, KnownCore()).Some? && NormalizePacket(t, KnownCore()).value.decrypted == KnownCore()
  {
    hide Trim, Lower, Normalize176, CrcZero, Sound;
    KnownCoreChecks();
    var core := KnownCore();
    LowerHexUnchanged(core);
    assert core[..CORE_CHARS] == core;
  }

  lemma KnownCoreChecks()
    ensures |KnownCore()| == 352 && IsLowerHex(KnownCore()) && CrcZero(KnownCore())
  {
    hide HexBits, Nibble, Crc, IsLowerHexChar;
    KnownCoreDigits();
    var body := NoughtChars(344) + "01";
    HexBitsOfThree(NoughtChars(344), "01", "864cfb");
    HexBitsAppend(NoughtChars(344), "01");
    NoughtBits(344);
    HexBitsOfPair('0', '1');
    NibbleBits('0', false, false, false, false);
    NibbleBits('1', false, false, false, true);
    OneIsBits();
    CrcIgnoresLeadingZeros(1376, BitsOf(1, 8));
    OneGivesGenerator();
    CheckDigits();
    CoreCrcZeroIff(HexBits(body), HexBits("864cfb"));
  }

  lemma KnownCoreDigits()
    ensures |KnownCore()| == 352 && IsLowerHex(KnownCore())
  {}

  lemma OneIsBits()
    ensures BitsOf(1, 8) == [false, false, false, false] + [false, false, false, true]
  {
    hide BitsOf;
    OneBits();
  }

  lemma CrcIgnoresLeadingZeros(n: nat, message: Bits)
    ensures Crc(Zeros(n) + message) == Crc(message)
  {
    assert Zeros(n) + message + Zeros(DEGREE) == Zeros(n) + (message + Zeros(DEGREE));
    LeadingZeros(n, message + Zeros(DEGREE));
  }

  // Acceptance: the result is a related pair with a valid decrypted core, the input is one of its
  // two sides, and nothing acceptable is refused.
  lemma AcceptedIsRelated(t: Tables, raw: string)
    requires Sound(t)
    ensures match NormalizePacket(t, raw)
      case Some(p) => Related(t, p) && Lower(Trim(raw)) in {p.encrypted, p.decrypted}
      case None => !exists p :: Related(t, p) && Lower(Trim(raw)) in {p.encrypted, p.decrypted}
  {
    hide Trim, Normalize176, CrcZero, Sound;
    var hex := Lower(Trim(raw));
    if PacketShape(hex) {
      var core, tail := hex[..CORE_CHARS], hex[CORE_CHARS..];
      LowerHexIsLower(Trim(raw));
      assert hex == core + tail;
      DirectionsInverse(t, core, true);
      DirectionsInverse(t, core, false);
    }
  }

  // Feeding the decrypted side back always gives the same pair. Feeding the encrypted side back
  // does so exactly when its own core does not happen to have checksum zero; then it is taken
  // for a decrypted one.
  lemma NormalizeAgain(t: Tables, p: Packet)
    requires Sound(t) && Related(t, p)
    ensures NormalizePacket(t, p.decrypted) == Some(p)
    ensures NormalizePacket(t, p.encrypted) == Some(p) <==>
      !CrcZero(p.encrypted[..CORE_CHARS]) || p.encrypted == p.decrypted
  {
    hide Trim, Lower, Normalize176, CrcZero, Sound;
    LowerHexUnchanged(p.decrypted);
    LowerHexUnchanged(p.encrypted);
    assert p.decrypted == p.decrypted[..CORE_CHARS] + p.decrypted[CORE_CHARS..];
    assert p.encrypted == p.encrypted[..CORE_CHARS] + p.encrypted[CORE_CHARS..];
  }

  lemma DamagedBits(p: Bits, x: string, y: string, q: Bits)
    requires |x| == |y| <= 6 && x != y && IsLowerHex(x) && IsLowerHex(y)
    requires IsZero(Crc(p + HexBits(x) + q))
    ensures !IsZero(Crc(p + HexBits(y) + q))
  {
    if HexBits(x) == HexBits(y) {
      HexBitsInjective(x, y);
    } else {
      BurstUnzeroesCrc(p, HexBits(x), HexBits(y), q);
    }
  }

  // Damage inside three consecutive bytes of a core with checksum zero is always noticed.
  lemma DamageIsNoticed(core: string, damaged: string, k: nat)
    requires |core| == |damaged| && k + 6 <= |core| && core != damaged
    requires IsLowerHex(core) && IsLowerHex(damaged)
    requires core[..k] == damaged[..k] && core[k + 6..] == damaged[k + 6..]
    requires CrcZero(core)
    ensures !CrcZero(damaged)
  {
    hide Crc, HexBits, IsZero;
    var p, x, y, q := core[..k], core[k..k + 6], damaged[k..k + 6], core[k + 6..];
    assert core == p + x + q && damaged == p + y + q;
    HexBitsOfThree(p, x, q);
    HexBitsOfThree(p, y, q);
    DamagedBits(HexBits(p), x, y, HexBits(q));
  }

  lemma HexBitsOfThree(p: string, x: string, q: string)
    ensures HexBits(p + x + q) == HexBits(p) + HexBits(x) + HexBits(q)
  {
    HexBitsAppend(p + x, q);
    HexBitsAppend(p, x);
  }

  lemma {:induction false} HexBitsInjective(a: string, b: string)
    requires |a| == |b| && IsLowerHex(a) && IsLowerHex(b) && HexBits(a) == HexBits(b)
    ensures a == b
  {
    if a != "" {
      var a', b' := a[..|a| - 1], b[..|b| - 1];
      assert HexBits(a)[..4 * |a'|] == HexBits(a') && HexBits(b)[..4 * |a'|] == HexBits(b');
      assert HexBits(a)[4 * |a'|..] == Nibble(a[|a'|]) && HexBits(b)[4 * |a'|..] == Nibble(b[|a'|]);
      HexBitsInjective(a', b');
      CharRoundTrip(a[|a'|]);
      CharRoundTrip(b[|a'|]);
      assert a == a' + [a[|a'|]] && b == b' + [b[|a'|]];
    }
  }
}
