/** Bit errors between two test packets: the shift loop counts the positions in which they differ. */
module BitDistance {
  datatype DataPacket = DataPacket(data0: bv8, data1: bv8)

  // ---------- What is counted ----------

  function One(differs: bool): nat { if differs then 1 else 0 }

  predicate Set(b: bv8, mask: bv8) { b & mask != 0 }

  function Differs(a: bv8, b: bv8, mask: bv8): nat { One(Set(a, mask) != Set(b, mask)) }

  // The number of positions in which two bytes differ.
  function ByteDistance(a: bv8, b: bv8): nat {
    Differs(a, b, 1) + Differs(a, b, 2) + Differs(a, b, 4) + Differs(a, b, 8)
    + Differs(a, b, 16) + Differs(a, b, 32) + Differs(a, b, 64) + Differs(a, b, 128)
  }

  function Distance(p: DataPacket, q: DataPacket): nat { ByteDistance(p.data0, q.data0) + ByteDistance(p.data1, q.data1) }

  // ---------- A metric ----------

  lemma SameBits(a: bv8, b: bv8)
    requires Set(a, 1) == Set(b, 1) && Set(a, 2) == Set(b, 2) && Set(a, 4) == Set(b, 4) && Set(a, 8) == Set(b, 8)
    requires Set(a, 16) == Set(b, 16) && Set(a, 32) == Set(b, 32) && Set(a, 64) == Set(b, 64) && Set(a, 128) == Set(b, 128)
    ensures a == b
  {
  }

  lemma Position(a: bv8, b: bv8, c: bv8, mask: bv8)
    ensures Differs(a, b, mask) == Differs(b, a, mask) <= 1
    ensures Differs(a, c, mask) <= Differs(a, b, mask) + Differs(b, c, mask)
  {
  }

  lemma ByteMetric(a: bv8, b: bv8, c: bv8)
    ensures ByteDistance(a, b) == ByteDistance(b, a) <= 8
    ensures ByteDistance(a, c) <= ByteDistance(a, b) + ByteDistance(b, c)
  {
    hide Differs;
    Position(a, b, c, 1);
    Position(a, b, c, 2);
    Position(a, b, c, 4);
    Position(a, b, c, 8);
    Position(a, b, c, 16);
    Position(a, b, c, 32);
    Position(a, b, c, 64);
    Position(a, b, c, 128);
  }

  lemma ByteZero(a: bv8, b: bv8)
    ensures ByteDistance(a, b) == 0 <==> a == b
  {
    hide Set;
    if ByteDistance(a, b) == 0 {
      SameBits(a, b);
    }
  }

  /** The distance of packets is a metric bounded by their sixteen bits. */
  lemma DistanceIsMetric(p: DataPacket, q: DataPacket, r: DataPacket)
    ensures Distance(p, q) == Distance(q, p) <= 16
    ensures Distance(p, q) == 0 <==> p == q
    ensures Distance(p, r) <= Distance(p, q) + Distance(q, r)
  {
    hide ByteDistance;
    ByteMetric(p.data0, q.data0, r.data0);
    ByteMetric(p.data1, q.data1, r.data1);
    ByteZero(p.data0, q.data0);
    ByteZero(p.data1, q.data1);
  }

  // ---------- The shift loop ----------

  lemma XorLow(a: bv8, b: bv8)
    ensures (Set(a ^ b, 1) <==> Set(a, 1) != Set(b, 1)) && (Set(a ^ b, 2) <==> Set(a, 2) != Set(b, 2))
    ensures (Set(a ^ b, 4) <==> Set(a, 4) != Set(b, 4)) && (Set(a ^ b, 8) <==> Set(a, 8) != Set(b, 8))
  {
  }

  lemma XorHigh(a: bv8, b: bv8)
    ensures (Set(a ^ b, 16) <==> Set(a, 16) != Set(b, 16)) && (Set(a ^ b, 32) <==> Set(a, 32) != Set(b, 32))
    ensures (Set(a ^ b, 64) <==> Set(a, 64) != Set(b, 64)) && (Set(a ^ b, 128) <==> Set(a, 128) != Set(b, 128))
  {
  }

  lemma ZeroHasNone(mask: bv8)
    ensures !Set(0, mask)
  {
  }

  lemma XorMarksDifferences(a: bv8, b: bv8)
    ensures ByteDistance(a ^ b, 0) == ByteDistance(a, b)
  {
    hide Set;
    XorLow(a, b);
    XorHigh(a, b);
    forall mask ensures !Set(0, mask) { ZeroHasNone(mask); }
  }

  lemma ShiftDropsOne(x: bv8)
    ensures ByteDistance(x, 0) == One(x & 1 == 1) + ByteDistance(x >> 1, 0)
    ensures x != 0 ==> x >> 1 < x
  {
  }

  method CountOnes(bits: bv8) returns (errors: nat)
    ensures errors == ByteDistance(bits, 0)
  {
    hide ByteDistance;
    errors := 0;
    var rest := bits;
    ByteZero(0, 0);
    while rest != 0
      invariant errors + ByteDistance(rest, 0) == ByteDistance(bits, 0)
      decreases rest
    {
      ShiftDropsOne(rest);
      if rest & 1 == 1 {
        errors := errors + 1;
      }
      rest := rest >> 1;
    }
  }

  method CountBitErrors(sent: DataPacket, received: DataPacket) returns (errors: nat)
    ensures errors == Distance(sent, received)
  {
    hide ByteDistance;
    XorMarksDifferences(sent.data0, received.data0);
    XorMarksDifferences(sent.data1, received.data1);
    var errors0 := CountOnes(sent.data0 ^ received.data0);
    var errors1 := CountOnes(sent.data1 ^ received.data1);
    return errors0 + errors1;
  }
}
