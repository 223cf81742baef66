/** The firmware checksum. The loop of the controller keeps a 32-bit register it never masks and
    uses a polynomial without its leading bit; it still computes the CRC of section 6.1 of
    RFC 4880, and that CRC notices every change confined to three consecutive bytes. */
module Crc24 {
  import opened Protocol
  import opened ShiftRegister
  import opened OctetBits

  // ---------- The register of 24 bits ----------

  function Xor(a: bv24, b: bv24): bv24 { a ^ b }

  // One shift; the polynomial's bit 24 falls out of the register.
  function Shift(c: bv24): bv24 { if c & 0x80_0000 != 0 then (c << 1) ^ 0x86_4CFB else c << 1 }

  function Unshift(c: bv24): bv24 { if c & 1 != 0 then ((c ^ 0x86_4CFB) >> 1) | 0x80_0000 else c >> 1 }

  function High(x: bv8): bv24 { (x as bv24) << 16 }

  function Middle(x: bv8): bv24 { (x as bv24) << 8 }

  function Lowest(x: bv8): bv24 { x as bv24 }

  const CRC: Machine<bv24> := Machine(Xor, Shift, Unshift, High, Middle, Lowest)
  const INIT: bv24 := 0xB7_04CE

  // ---------- Its laws ----------

  lemma XorAssociative(a: bv24, b: bv24, c: bv24)
    ensures Xor(Xor(a, b), c) == Xor(a, Xor(b, c))
  {
  }

  lemma XorCancels(a: bv24, b: bv24)
    ensures Xor(Xor(a, b), b) == a
  {
  }

  lemma XorInjective(c: bv24, a: bv24, b: bv24)
    requires Xor(c, a) == Xor(c, b)
    ensures a == b
  {
  }

  lemma ShiftLinearBoth(a: bv24, b: bv24)
    requires a & 0x80_0000 != 0 && b & 0x80_0000 != 0
    ensures Shift(Xor(a, b)) == Xor(Shift(a), Shift(b))
  {
  }

  lemma ShiftLinearLeft(a: bv24, b: bv24)
    requires a & 0x80_0000 != 0 && b & 0x80_0000 == 0
    ensures Shift(Xor(a, b)) == Xor(Shift(a), Shift(b))
  {
  }

  lemma ShiftLinearRight(a: bv24, b: bv24)
    requires a & 0x80_0000 == 0 && b & 0x80_0000 != 0
    ensures Shift(Xor(a, b)) == Xor(Shift(a), Shift(b))
  {
  }

  lemma ShiftLinearNone(a: bv24, b: bv24)
    requires a & 0x80_0000 == 0 && b & 0x80_0000 == 0
    ensures Shift(Xor(a, b)) == Xor(Shift(a), Shift(b))
  {
  }

  lemma ShiftLinearTop(a: bv24, b: bv24)
    requires a & 0x80_0000 != 0
    ensures Shift(Xor(a, b)) == Xor(Shift(a), Shift(b))
  {
    if b & 0x80_0000 != 0 {
      ShiftLinearBoth(a, b);
    } else {
      ShiftLinearLeft(a, b);
    }
  }

  lemma ShiftLinearRest(a: bv24, b: bv24)
    requires a & 0x80_0000 == 0
    ensures Shift(Xor(a, b)) == Xor(Shift(a), Shift(b))
  {
    if b & 0x80_0000 != 0 {
      ShiftLinearRight(a, b);
    } else {
      ShiftLinearNone(a, b);
    }
  }

  lemma ShiftLinear(a: bv24, b: bv24)
    ensures Shift(Xor(a, b)) == Xor(Shift(a), Shift(b))
  {
    if a & 0x80_0000 != 0 {
      ShiftLinearTop(a, b);
    } else {
      ShiftLinearRest(a, b);
    }
  }

  lemma UnshiftShiftTop(a: bv24)
    requires a & 0x80_0000 != 0
    ensures Unshift(Shift(a)) == a
  {
  }

  lemma UnshiftShiftRest(a: bv24)
    requires a & 0x80_0000 == 0
    ensures Unshift(Shift(a)) == a
  {
  }

  lemma UnshiftShift(a: bv24)
    ensures Unshift(Shift(a)) == a
  {
    if a & 0x80_0000 != 0 {
      UnshiftShiftTop(a);
    } else {
      UnshiftShiftRest(a);
    }
  }

  lemma ShiftUnshift(a: bv24)
    ensures Shift(Unshift(a)) == a
  {
  }

  function Shift8(c: bv24): bv24 { Shift(Shift(Shift(Shift(Shift(Shift(Shift(Shift(c)))))))) }

  lemma LowestMoves(x: bv8)
    ensures Shift8(Lowest(x)) == Middle(x)
  {
  }

  lemma MiddleMoves(x: bv8)
    ensures Shift8(Middle(x)) == High(x)
  {
  }

  lemma Iterate8<T>(f: T -> T, c: T)
    ensures Iterate(f, 8, c) == f(f(f(f(f(f(f(f(c))))))))
  {
    assert Iterate(f, 2, c) == f(f(c));
    assert Iterate(f, 4, c) == f(f(Iterate(f, 2, c)));
    assert Iterate(f, 6, c) == f(f(Iterate(f, 4, c)));
  }

  lemma WordInjective(x: bv8, y: bv8, z: bv8, x': bv8, y': bv8, z': bv8)
    requires Xor(Xor(High(x), Middle(y)), Lowest(z)) == Xor(Xor(High(x'), Middle(y')), Lowest(z'))
    ensures x == x' && y == y' && z == z'
  {
  }

  lemma XorLaws()
    ensures Associative(CRC) && Injective(CRC) && Cancels(CRC)
  {
    forall a, b, c ensures CRC.xor(CRC.xor(a, b), c) == CRC.xor(a, CRC.xor(b, c)) { XorAssociative(a, b, c); }
    forall c, a, b | CRC.xor(c, a) == CRC.xor(c, b) ensures a == b { XorInjective(c, a, b); }
    forall a, b ensures CRC.xor(CRC.xor(a, b), b) == a { XorCancels(a, b); }
  }

  lemma LinearLaw()
    ensures Linear(CRC)
  {
    hide Shift, Xor;
    forall a, b ensures CRC.shift(CRC.xor(a, b)) == CRC.xor(CRC.shift(a), CRC.shift(b)) { ShiftLinear(a, b); }
  }

  lemma InverseLaws()
    ensures Undone(CRC.shift, CRC.unshift) && Undone(CRC.unshift, CRC.shift)
  {
    hide Shift, Unshift;
    forall a ensures CRC.unshift(CRC.shift(a)) == a { UnshiftShift(a); }
    forall a ensures CRC.shift(CRC.unshift(a)) == a { ShiftUnshift(a); }
  }

  lemma PlaceLaws()
    ensures Places(CRC)
  {
    forall x ensures Iterate(CRC.shift, 8, CRC.low(x)) == CRC.middle(x) {
      Iterate8(CRC.shift, CRC.low(x));
      LowestMoves(x);
    }
    forall x ensures Iterate(CRC.shift, 8, CRC.middle(x)) == CRC.high(x) {
      Iterate8(CRC.shift, CRC.middle(x));
      MiddleMoves(x);
    }
  }

  lemma WordLaws()
    ensures Words(CRC)
  {
    forall x, y, z, x', y', z' | Three(CRC, x, y, z) == Three(CRC, x', y', z') ensures x == x' && y == y' && z == z' {
      WordInjective(x, y, z, x', y', z');
    }
  }

  lemma CrcLawful()
    ensures Lawful(CRC)
  {
    XorLaws();
    LinearLaw();
    InverseLaws();
    PlaceLaws();
    WordLaws();
  }

  // ---------- The loop of section 6.1 of RFC 4880, for either polynomial ----------

  const RFC_POLY: bv32 := 0x0186_4CFB
  const CODE_POLY: bv32 := 0x0086_4CFB

  function Shift32(poly: bv32, c: bv32): bv32 {
    if (c << 1) & 0x0100_0000 != 0 then (c << 1) ^ poly else c << 1
  }

  function Shifts32(poly: bv32, n: nat, c: bv32): bv32 { if n == 0 then c else Shift32(poly, Shifts32(poly, n - 1, c)) }

  function Insert32(c: bv32, x: bv8): bv32 { c ^ ((x as bv32) << 16) }

  function Loop(poly: bv32, data: seq<bv8>): bv32 {
    if data == [] then 0xB7_04CE else Shifts32(poly, 8, Insert32(Loop(poly, data[..|data| - 1]), data[|data| - 1]))
  }

  function Masked(c: bv32): bv32 { c & 0xFF_FFFF }

  /** The checksum the standard defines. */
  function Rfc4880(data: seq<bv8>): bv32 { Masked(Loop(RFC_POLY, data)) }

  function Bits(data: seq<byte>): seq<bv8> { seq(|data|, i requires 0 <= i < |data| => Pattern(data[i])) }

  /** The checksum of a firmware image. */
  function Checksum(data: seq<byte>): bv32 { Rfc4880(Bits(data)) }

  // ---------- Both loops compute the register of 24 bits ----------

  function Low(c: bv32): bv24 { (c & 0xFF_FFFF) as bv24 }

  lemma LowShiftRfc(c: bv32)
    ensures Low(if (c << 1) & 0x0100_0000 != 0 then (c << 1) ^ 0x0186_4CFB else c << 1) == Shift(Low(c))
  {
  }

  lemma LowShiftCode(c: bv32)
    ensures Low(if (c << 1) & 0x0100_0000 != 0 then (c << 1) ^ 0x0086_4CFB else c << 1) == Shift(Low(c))
  {
  }

  lemma LowShift(poly: bv32, c: bv32)
    requires poly == RFC_POLY || poly == CODE_POLY
    ensures Low(Shift32(poly, c)) == Shift(Low(c))
  {
    if poly == RFC_POLY {
      LowShiftRfc(c);
    } else {
      LowShiftCode(c);
    }
  }

  lemma LowInsert(c: bv32, x: bv8)
    ensures Low(Insert32(c, x)) == Xor(Low(c), High(x))
  {
  }

  lemma {:induction false} LowShifts(poly: bv32, n: nat, c: bv32)
    requires poly == RFC_POLY || poly == CODE_POLY
    ensures Low(Shifts32(poly, n, c)) == Iterate(CRC.shift, n, Low(c))
  {
    if n > 0 {
      LowShifts(poly, n - 1, c);
      LowShift(poly, Shifts32(poly, n - 1, c));
    }
  }

  lemma {:induction false} LowLoop(poly: bv32, data: seq<bv8>)
    requires poly == RFC_POLY || poly == CODE_POLY
    ensures Low(Loop(poly, data)) == Octets(CRC, INIT, data)
  {
    if data != [] {
      var front, x := data[..|data| - 1], data[|data| - 1];
      LowLoop(poly, front);
      LowInsert(Loop(poly, front), x);
      LowShifts(poly, 8, Insert32(Loop(poly, front), x));
    }
  }

  lemma LowMasked(a: bv32, b: bv32)
    requires Low(a) == Low(b)
    ensures Masked(a) == Masked(b)
  {
  }

  lemma MaskedLow(a: bv32, b: bv32)
    requires Masked(a) == Masked(b)
    ensures Low(a) == Low(b)
  {
  }

  /** The short polynomial and the unmasked register do not change the checksum. */
  lemma CodeMeetsRfc(data: seq<bv8>)
    ensures Masked(Loop(CODE_POLY, data)) == Rfc4880(data)
  {
    LowLoop(CODE_POLY, data);
    LowLoop(RFC_POLY, data);
    LowMasked(Loop(CODE_POLY, data), Loop(RFC_POLY, data));
  }

  // Eight rounds of the inner loop.
  method Rounds(start: bv32) returns (crc: bv32)
    ensures crc == Shifts32(CODE_POLY, 8, start)
  {
    crc := start;
    for bit := 0 to 8
      invariant crc == Shifts32(CODE_POLY, bit, start)
    {
      crc := Round(crc);
    }
  }

  method Round(start: bv32) returns (crc: bv32)
    ensures crc == Shift32(CODE_POLY, start)
  {
    crc := start << 1;
    if crc & 0x0100_0000 != 0 {
      crc := crc ^ 0x0086_4CFB;
    }
  }

  lemma LoopSnoc(data: seq<bv8>, i: nat)
    requires i < |data|
    ensures Loop(CODE_POLY, data[..i + 1]) == Shifts32(CODE_POLY, 8, Insert32(Loop(CODE_POLY, data[..i]), data[i]))
  {
    assert data[..i + 1][..i] == data[..i];
  }

  /** The checksum of the code is the checksum of the standard. */
  method Crc24(data: seq<byte>) returns (crc: bv32)
    ensures crc == Checksum(data)
  {
    ghost var bits := Bits(data);
    crc := 0xB7_04CE;
    for i := 0 to |data|
      invariant crc == Loop(CODE_POLY, bits[..i])
    {
      LoopSnoc(bits, i);
      crc := Rounds(Insert32(crc, Pattern(data[i])));
    }
    assert bits[..|data|] == bits;
    CodeMeetsRfc(bits);
    crc := Masked(crc);
  }

  /** Taking in one byte permutes the 2^24 registers. */
  lemma ByteBijective(c: bv24, x: bv8)
    ensures Unoctet(CRC, Octet(CRC, c, x), x) == c
    ensures Octet(CRC, Unoctet(CRC, c, x), x) == c
  {
    CrcLawful();
    OctetBijective(CRC, c, x);
  }

  lemma BitsApart(x: seq<byte>, y: seq<byte>)
    requires |x| == |y| && Bits(x) == Bits(y)
    ensures x == y
  {
    forall i | 0 <= i < |x| ensures x[i] == y[i] {
      assert Bits(x)[i] == Bits(y)[i];
      NumberKept(x[i]);
      NumberKept(y[i]);
    }
  }

  /** Two images of one length that differ, but only inside a window of three consecutive bytes,
      have different checksums. */
  lemma ThreeByteErrorsDetected(x: seq<byte>, y: seq<byte>, at: nat)
    requires SameOutside(x, y, at) && x != y
    ensures Checksum(x) != Checksum(y)
  {
    var v, w := Bits(x), Bits(y);
    assert v != w by {
      if v == w { BitsApart(x, y); }
    }
    CrcLawful();
    WindowDetected(CRC, INIT, v, w, at);
    LowLoop(RFC_POLY, v);
    LowLoop(RFC_POLY, w);
    if Rfc4880(v) == Rfc4880(w) {
      MaskedLow(Loop(RFC_POLY, v), Loop(RFC_POLY, w));
    }
  }
}
