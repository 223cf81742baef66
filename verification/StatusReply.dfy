/** The TS reply: a 32-bit validation mask followed by one two-byte block for each of the
    low 24 mask bits that is set (StatusCommand::parseResponseData). */
module StatusReply {
  import opened Protocol

  datatype Status = Status(mask: nat, blocks: seq<seq<byte>>)

  const BITS := 24

  predicate Bit(mask: nat, bit: nat) { mask / Pow2(bit) % 2 == 1 }

  function Mask32(payload: seq<byte>): nat
    requires |payload| >= 4
  {
    payload[0] as int * 0x100_0000 + payload[1] as int * 0x1_0000 + payload[2] as int * 0x100 + payload[3] as int
  }

  // The blocks of the set bits from `bit` on, read at `offset`; None when the payload is short.
  function Blocks(mask: nat, payload: seq<byte>, bit: nat, offset: nat): Option<seq<seq<byte>>>
    requires bit <= BITS
    decreases BITS - bit
  {
    if bit == BITS then Some([])
    else if !Bit(mask, bit) then Blocks(mask, payload, bit + 1, offset)
    else if offset + 2 > |payload| then None
    else
      match Blocks(mask, payload, bit + 1, offset + 2)
      case None => None
      case Some(rest) => Some([payload[offset..offset + 2]] + rest)
  }

  function Parse(payload: seq<byte>): Option<Status> {
    if |payload| < 4 then None
    else
      match Blocks(Mask32(payload), payload, 0, 4)
      case None => None
      case Some(blocks) => Some(Status(Mask32(payload), blocks))
  }

  // ---------- When parsing succeeds ----------

  // How many of the mask bits from `bit` to 23 are set.
  function Population(mask: nat, bit: nat): nat
    requires bit <= BITS
    decreases BITS - bit
  {
    if bit == BITS then 0 else (if Bit(mask, bit) then 1 else 0) + Population(mask, bit + 1)
  }

  lemma {:induction false} BlocksFit(mask: nat, payload: seq<byte>, bit: nat, offset: nat)
    requires bit <= BITS && offset <= |payload|
    ensures Blocks(mask, payload, bit, offset).Some? <==> offset + 2 * Population(mask, bit) <= |payload|
    decreases BITS - bit
  {
    hide Bit;
    if bit < BITS && !Bit(mask, bit) {
      BlocksFit(mask, payload, bit + 1, offset);
    } else if bit < BITS && offset + 2 <= |payload| {
      BlocksFit(mask, payload, bit + 1, offset + 2);
    }
  }

  /** A status parses exactly when its payload holds the mask and two bytes for every set bit among
      the low 24; what follows them is ignored. */
  lemma ParseSucceeds(payload: seq<byte>)
    ensures Parse(payload).Some? <==> |payload| >= 4 && |payload| >= 4 + 2 * Population(Mask32(payload), 0)
  {
    hide Bit, Mask32;
    if |payload| >= 4 {
      BlocksFit(Mask32(payload), payload, 0, 4);
    }
  }

  // ---------- Encoding ----------

  function Spelled(word: Address): seq<byte> { [word / 256, word % 256] }

  // The words of the set bits from `bit` on.
  function Packed(mask: nat, words: seq<Address>, bit: nat): seq<byte>
    requires |words| == BITS && bit <= BITS
    decreases BITS - bit
  {
    if bit == BITS then []
    else (if Bit(mask, bit) then Spelled(words[bit]) else []) + Packed(mask, words, bit + 1)
  }

  function Encode(mask: nat, words: seq<Address>): seq<byte>
    requires mask < 0x1_0000_0000 && |words| == BITS
  {
    [mask / 0x100_0000, mask / 0x1_0000 % 0x100, mask / 0x100 % 0x100, mask % 0x100] + Packed(mask, words, 0)
  }

  // The blocks those words make.
  function BlocksOf(mask: nat, words: seq<Address>, bit: nat): seq<seq<byte>>
    requires |words| == BITS && bit <= BITS
    decreases BITS - bit
  {
    if bit == BITS then []
    else (if Bit(mask, bit) then [Spelled(words[bit])] else []) + BlocksOf(mask, words, bit + 1)
  }

  lemma MaskKept(mask: nat, rest: seq<byte>)
    requires mask < 0x1_0000_0000
    ensures Mask32([mask / 0x100_0000, mask / 0x1_0000 % 0x100, mask / 0x100 % 0x100, mask % 0x100] + rest) == mask
  {
    var a, b, c := mask / 0x100, mask / 0x1_0000, mask / 0x100_0000;
    assert b == a / 0x100 && c == b / 0x100;
  }

  lemma {:induction false} BlocksKept(mask: nat, words: seq<Address>, front: seq<byte>, rest: seq<byte>, bit: nat)
    requires |words| == BITS && bit <= BITS
    ensures Blocks(mask, front + Packed(mask, words, bit) + rest, bit, |front|) == Some(BlocksOf(mask, words, bit))
    decreases BITS - bit
  {
    hide Bit, Spelled;
    if bit < BITS {
      var whole := front + Packed(mask, words, bit) + rest;
      if Bit(mask, bit) {
        var next := front + Spelled(words[bit]);
        TwoBytes(words[bit]);
        assert whole == next + Packed(mask, words, bit + 1) + rest;
        assert whole[|front|..|front| + 2] == Spelled(words[bit]);
        assert |next| == |front| + 2 <= |whole|;
        BlocksKept(mask, words, next, rest, bit + 1);
      } else {
        assert Packed(mask, words, bit) == Packed(mask, words, bit + 1);
        assert BlocksOf(mask, words, bit) == BlocksOf(mask, words, bit + 1);
        BlocksKept(mask, words, front, rest, bit + 1);
      }
    }
  }

  lemma TwoBytes(word: Address)
    ensures |Spelled(word)| == 2
    ensures Word(Spelled(word)[0], Spelled(word)[1]) == word
  {
  }

  /** Any mask and any words come back as the mask and one block for each set bit. */
  lemma ParseEncoded(mask: nat, words: seq<Address>, rest: seq<byte>)
    requires mask < 0x1_0000_0000 && |words| == BITS
    ensures Parse(Encode(mask, words) + rest) == Some(Status(mask, BlocksOf(mask, words, 0)))
  {
    hide Packed, Blocks, BlocksOf, Mask32;
    var head := [mask / 0x100_0000, mask / 0x1_0000 % 0x100, mask / 0x100 % 0x100, mask % 0x100];
    assert Encode(mask, words) + rest == head + (Packed(mask, words, 0) + rest) == head + Packed(mask, words, 0) + rest;
    MaskKept(mask, Packed(mask, words, 0) + rest);
    BlocksKept(mask, words, head, rest, 0);
  }

  // ---------- The parser ----------

  method ParseResponseData(payload: seq<byte>) returns (status: Option<Status>)
    ensures status == Parse(payload)
  {
    hide Bit, Mask32;
    if |payload| < 4 {
      return None;
    }
    var mask := Mask32(payload);
    var offset := 4;
    var blocks: seq<seq<byte>> := [];
    PrefixedNone(Blocks(mask, payload, 0, 4));
    for bit := 0 to BITS
      invariant 4 <= offset <= |payload|
      invariant Blocks(mask, payload, 0, 4) == Prefixed(blocks, Blocks(mask, payload, bit, offset))
    {
      if Bit(mask, bit) {
        if offset + 2 > |payload| {
          return None;
        }
        PrefixedOne(blocks, payload[offset..offset + 2], Blocks(mask, payload, bit + 1, offset + 2));
        blocks := blocks + [payload[offset..offset + 2]];
        offset := offset + 2;
      }
    }
    assert blocks + [] == blocks;
    return Some(Status(mask, blocks));
  }

  function Prefixed(blocks: seq<seq<byte>>, rest: Option<seq<seq<byte>>>): Option<seq<seq<byte>>> {
    match rest
    case None => None
    case Some(more) => Some(blocks + more)
  }

  lemma PrefixedNone(rest: Option<seq<seq<byte>>>)
    ensures Prefixed([], rest) == rest
  {
    if rest.Some? {
      assert [] + rest.value == rest.value;
    }
  }

  lemma PrefixedOne(blocks: seq<seq<byte>>, block: seq<byte>, rest: Option<seq<seq<byte>>>)
    ensures Prefixed(blocks, Prefixed([block], rest)) == Prefixed(blocks + [block], rest)
  {
    if rest.Some? {
      assert blocks + ([block] + rest.value) == blocks + [block] + rest.value;
    }
  }
}
