/** A byte as a number and as a pattern of eight bits, one hexadecimal digit at a time. */
module OctetBits {
  import opened Protocol

  function Nibble(v: nat): bv8
    requires v < 16
  {
    if v == 0 then 0 else if v == 1 then 1 else if v == 2 then 2 else if v == 3 then 3
    else if v == 4 then 4 else if v == 5 then 5 else if v == 6 then 6 else if v == 7 then 7
    else if v == 8 then 8 else if v == 9 then 9 else if v == 10 then 10 else if v == 11 then 11
    else if v == 12 then 12 else if v == 13 then 13 else if v == 14 then 14 else 15
  }

  function Digit(b: bv8): (v: nat)
    ensures v < 16
  {
    if b == 0 then 0 else if b == 1 then 1 else if b == 2 then 2 else if b == 3 then 3
    else if b == 4 then 4 else if b == 5 then 5 else if b == 6 then 6 else if b == 7 then 7
    else if b == 8 then 8 else if b == 9 then 9 else if b == 10 then 10 else if b == 11 then 11
    else if b == 12 then 12 else if b == 13 then 13 else if b == 14 then 14 else 15
  }

  function Pattern(x: byte): bv8 { (Nibble(x / 16) << 4) | Nibble(x % 16) }

  function Number(b: bv8): byte { Digit(b >> 4) * 16 + Digit(b & 0xF) }

  lemma NibbleKept(v: nat)
    requires v < 16
    ensures Digit(Nibble(v)) == v && Nibble(v) <= 15
  {
  }

  lemma DigitKept(b: bv8)
    requires b <= 15
    ensures Nibble(Digit(b)) == b
  {
  }

  lemma Halves(hi: bv8, lo: bv8)
    requires hi <= 15 && lo <= 15
    ensures ((hi << 4) | lo) >> 4 == hi && ((hi << 4) | lo) & 0xF == lo
  {
  }

  lemma Whole(b: bv8)
    ensures b >> 4 <= 15 && b & 0xF <= 15 && ((b >> 4) << 4) | (b & 0xF) == b
  {
  }

  /** Neither conversion loses anything. */
  lemma NumberKept(x: byte)
    ensures Number(Pattern(x)) == x
  {
    NibbleKept(x / 16);
    NibbleKept(x % 16);
    Halves(Nibble(x / 16), Nibble(x % 16));
  }

  lemma PatternOf(hi: nat, lo: nat)
    requires hi < 16 && lo < 16
    ensures Pattern(hi * 16 + lo) == (Nibble(hi) << 4) | Nibble(lo)
  {
    assert (hi * 16 + lo) / 16 == hi && (hi * 16 + lo) % 16 == lo;
  }

  lemma PatternKept(b: bv8)
    ensures Pattern(Number(b)) == b
  {
    Whole(b);
    PatternOf(Digit(b >> 4), Digit(b & 0xF));
    DigitKept(b >> 4);
    DigitKept(b & 0xF);
  }
}
