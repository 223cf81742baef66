/** The controller's reading of a TS status: the same mask walked a second time, over the blocks
    the parser cut, into the measurements of one board. */
module StatusDecoder {
  import opened Protocol
  import opened StatusReply

  // The float of a power code has the bits of the code.
  datatype Channel = Channel(powerCode: nat, power: nat, vswrCode: nat, isOk: bool)

  /** The temperatures are t1, t2, t3, t4, tv1, tv2, tin and tout, as codes. */
  datatype FullState = FullState(addressMask: Address, validationMask: nat, temperatures: seq<int>, ch1: Channel, ch2: Channel)

  datatype Settings = Settings(power1: nat, power2: nat, fuBlocked: bool, rebootRequested: bool, resetErrors: bool, powerEnabled: bool)

  const BOARDS := 16
  const SENSORS := 8

  // ---------- Which words a status holds ----------

  // How many of the mask bits below `bit` are set.
  function Rank(mask: nat, bit: nat): nat {
    if bit == 0 then 0 else Rank(mask, bit - 1) + (if Bit(mask, bit - 1) then 1 else 0)
  }

  predicate Present(mask: nat, blocks: seq<seq<byte>>, bit: nat) {
    Bit(mask, bit) && Rank(mask, bit) < |blocks| && |blocks[Rank(mask, bit)]| >= 2
  }

  function WordAt(mask: nat, blocks: seq<seq<byte>>, bit: nat): Option<Address> {
    if Present(mask, blocks, bit)
    then
      var block := blocks[Rank(mask, bit)];
      Some(Word(block[0], block[1]))
    else None
  }

  // The word of each bit below `limit`.
  function Seen(mask: nat, blocks: seq<seq<byte>>, limit: nat): (seen: seq<Option<Address>>)
    ensures |seen| == BITS
  {
    seq(BITS, bit requires 0 <= bit < BITS => if bit < limit then WordAt(mask, blocks, bit) else None)
  }

  // ---------- What those words say ----------

  function Signed16(word: Address): int { if word < 0x8000 then word else word - 0x1_0000 }

  // Two's complement: the one value of a signed 16-bit number with these bits.
  lemma TwosComplement(word: Address, value: int)
    requires -0x8000 <= value < 0x8000
    ensures value == Signed16(word) <==> (value - word) % 0x1_0000 == 0
  {
  }

  // A channel's new readings, given the words of its power and VSWR and its health byte.
  function Tuned(c: Channel, hi: Option<Address>, lo: Option<Address>, vhi: Option<Address>, vlo: Option<Address>, ok: Option<bool>): Channel {
    var code := if hi.Some? && lo.Some? then hi.value * 0x1_0000 + lo.value else c.powerCode;
    Channel(
      code,
      if hi.Some? && lo.Some? then code else c.power,
      if vhi.Some? && vlo.Some? then vlo.value else c.vswrCode,
      if ok.Some? then ok.value else c.isOk)
  }

  function Health(word: Option<Address>, first: bool): Option<bool> {
    if word.None? then None else Some(if first then word.value / 256 != 0 else word.value % 256 != 0)
  }

  /** The state of a board after a status with these words: each field takes its own words, a power
      or VSWR needs both halves, and what is not reported stays. */
  function Decoded(s: FullState, address: Address, mask: nat, seen: seq<Option<Address>>): FullState
    requires |seen| == BITS && |s.temperatures| == SENSORS
  {
    FullState(
      address,
      mask,
      seq(SENSORS, i requires 0 <= i < SENSORS => if seen[5 + i].Some? then Signed16(seen[5 + i].value) else s.temperatures[i]),
      Tuned(s.ch1, seen[1], seen[2], seen[13], seen[14], Health(seen[0], true)),
      Tuned(s.ch2, seen[3], seen[4], seen[15], seen[16], Health(seen[0], false)))
  }

  // ---------- The pipeline ----------

  // What the words of an encoded status look like on arrival.
  function Reported(mask: nat, words: seq<Address>): (seen: seq<Option<Address>>)
    requires |words| == BITS
    ensures |seen| == BITS
  {
    seq(BITS, bit requires 0 <= bit < BITS => if Bit(mask, bit) then Some(words[bit]) else None)
  }

  // Both walks of the mask find the block of a bit at its rank.
  lemma {:induction false} BlockAtRank(mask: nat, words: seq<Address>, start: nat, bit: nat)
    requires |words| == BITS && start <= bit < BITS && Bit(mask, bit)
    ensures Rank(mask, start) <= Rank(mask, bit)
    ensures var at := Rank(mask, bit) - Rank(mask, start); var blocks := BlocksOf(mask, words, start);
      at < |blocks| && blocks[at] == Spelled(words[bit])
    decreases bit - start
  {
    hide Bit, Spelled;
    if start < bit {
      BlockAtRank(mask, words, start + 1, bit);
    }
  }

  lemma {:induction false} BlockPosition(mask: nat, payload: seq<byte>, start: nat, offset: nat, bit: nat)
    requires start <= bit < BITS && Bit(mask, bit) && Blocks(mask, payload, start, offset).Some?
    ensures Rank(mask, start) <= Rank(mask, bit)
    ensures var at := Rank(mask, bit) - Rank(mask, start); var blocks := Blocks(mask, payload, start, offset).value;
      at < |blocks| && offset + 2 * at + 2 <= |payload| && blocks[at] == payload[offset + 2 * at..offset + 2 * at + 2]
    decreases bit - start
  {
    hide Bit;
    if start < bit {
      BlockPosition(mask, payload, start + 1, if Bit(mask, start) then offset + 2 else offset, bit);
    }
  }

  /** For every payload that parses, the second walk finds the word of each set bit, and it is the one
      behind the words of the lower set bits. */
  lemma WalksAgree(payload: seq<byte>, bit: nat)
    requires Parse(payload).Some? && bit < BITS
    ensures var Status(mask, blocks) := Parse(payload).value; var at := 4 + 2 * Rank(mask, bit);
      && (WordAt(mask, blocks, bit).Some? <==> Bit(mask, bit))
      && (Bit(mask, bit) ==> at + 2 <= |payload| && WordAt(mask, blocks, bit) == Some(Word(payload[at], payload[at + 1])))
  {
    hide Bit, Mask32, Word, Blocks, Rank;
    var mask := Mask32(payload);
    if Bit(mask, bit) {
      NoRank(mask);
      BlockPosition(mask, payload, 0, 4, bit);
    }
  }

  lemma WordArrives(mask: nat, words: seq<Address>, bit: nat)
    requires |words| == BITS && bit < BITS
    ensures WordAt(mask, BlocksOf(mask, words, 0), bit) == if Bit(mask, bit) then Some(words[bit]) else None
  {
    hide Bit, Spelled, BlocksOf, Rank, Word;
    if Bit(mask, bit) {
      NoRank(mask);
      BlockAtRank(mask, words, 0, bit);
      TwoBytes(words[bit]);
    }
  }

  lemma SeenReported(mask: nat, words: seq<Address>)
    requires |words| == BITS
    ensures Seen(mask, BlocksOf(mask, words, 0), BITS) == Reported(mask, words)
  {
    hide Bit, BlocksOf, WordAt;
    forall bit | 0 <= bit < BITS
      ensures WordAt(mask, BlocksOf(mask, words, 0), bit) == if Bit(mask, bit) then Some(words[bit]) else None
    {
      WordArrives(mask, words, bit);
    }
  }

  lemma NoRank(mask: nat)
    ensures Rank(mask, 0) == 0
  {
  }

  /** Encoding, parsing and decoding: whatever the mask and the words, and whatever follows them, the
      board ends up with each word in its own field. */
  lemma StatusArrives(s: FullState, address: Address, mask: nat, words: seq<Address>, rest: seq<byte>)
    requires |s.temperatures| == SENSORS && mask < 0x1_0000_0000 && |words| == BITS
    ensures var status := Parse(Encode(mask, words) + rest);
      status.Some? && Decoded(s, address, status.value.mask, Seen(status.value.mask, status.value.blocks, BITS))
        == Decoded(s, address, mask, Reported(mask, words))
  {
    hide Parse, Encode, Seen, Reported, Decoded, BlocksOf;
    ParseEncoded(mask, words, rest);
    SeenReported(mask, words);
  }

  /** Field by field, from the bits of the mask: a power moves only if both its halves are reported, a
      temperature only with its own bit, a VSWR keeps the low word alone, the health of the channels
      is in the two bytes of bit 0, and what is not reported stays. */
  lemma FieldsTakeTheirWords(s: FullState, address: Address, mask: nat, words: seq<Address>)
    requires |s.temperatures| == SENSORS && |words| == BITS
    ensures var t := Decoded(s, address, mask, Reported(mask, words));
      && t.addressMask == address && t.validationMask == mask
      && t.ch1.powerCode == (if Bit(mask, 1) && Bit(mask, 2) then words[1] * 0x1_0000 + words[2] else s.ch1.powerCode)
      && t.ch2.powerCode == (if Bit(mask, 3) && Bit(mask, 4) then words[3] * 0x1_0000 + words[4] else s.ch2.powerCode)
      && (s.ch1.power == s.ch1.powerCode ==> t.ch1.power == t.ch1.powerCode)
      && (s.ch2.power == s.ch2.powerCode ==> t.ch2.power == t.ch2.powerCode)
      && t.ch1.vswrCode == (if Bit(mask, 13) && Bit(mask, 14) then words[14] else s.ch1.vswrCode)
      && t.ch2.vswrCode == (if Bit(mask, 15) && Bit(mask, 16) then words[16] else s.ch2.vswrCode)
      && t.ch1.isOk == (if Bit(mask, 0) then words[0] / 256 != 0 else s.ch1.isOk)
      && t.ch2.isOk == (if Bit(mask, 0) then words[0] % 256 != 0 else s.ch2.isOk)
      && forall i :: 0 <= i < SENSORS ==> t.temperatures[i] == if Bit(mask, 5 + i) then Signed16(words[5 + i]) else s.temperatures[i]
  {
    hide Bit, Signed16;
  }

  // ---------- One step of the walk ----------

  // The halves of a four-byte code seen so far and not yet used.
  function Half(hi: Option<Address>, lo: Option<Address>): Option<Address> { if lo.None? then hi else None }

  /** The locals of processStatusData: the state and the four pending high halves. */
  datatype Walk = Walk(state: FullState, power1: Option<Address>, power2: Option<Address>, vswr1: Option<Address>, vswr2: Option<Address>)

  // Where the walk stands when it has seen these words.
  function Standing(s: FullState, address: Address, mask: nat, seen: seq<Option<Address>>): Walk
    requires |seen| == BITS && |s.temperatures| == SENSORS
  {
    Walk(Decoded(s, address, mask, seen), Half(seen[1], seen[2]), Half(seen[3], seen[4]), Half(seen[13], seen[14]), Half(seen[15], seen[16]))
  }

  predicate Ahead(seen: seq<Option<Address>>, bit: nat) { |seen| == BITS && forall k :: bit <= k < BITS ==> seen[k].None? }

  // The switch on one bit.
  method Visit(w: Walk, bit: nat, block: seq<byte>, ghost s: FullState, ghost address: Address, ghost mask: nat, ghost seen: seq<Option<Address>>)
    returns (next: Walk)
    requires |block| >= 2 && bit < BITS && Ahead(seen, bit) && |s.temperatures| == SENSORS
    requires w == Standing(s, address, mask, seen)
    ensures next == Standing(s, address, mask, seen[bit := Some(Word(block[0], block[1]))])
  {
    hide Word, Signed16;
    var word := Word(block[0], block[1]);
    WordBytes(block[0], block[1]);
    next := w;
    match bit {
      case 0 =>
        next := next.(state := w.state.(ch1 := w.state.ch1.(isOk := block[0] != 0), ch2 := w.state.ch2.(isOk := block[1] != 0)));
      case 1 => next := next.(power1 := Some(word));
      case 2 =>
        if w.power1.Some? {
          var code := w.power1.value * 0x1_0000 + word;
          next := next.(power1 := None, state := w.state.(ch1 := w.state.ch1.(powerCode := code, power := code)));
        }
      case 3 => next := next.(power2 := Some(word));
      case 4 =>
        if w.power2.Some? {
          var code := w.power2.value * 0x1_0000 + word;
          next := next.(power2 := None, state := w.state.(ch2 := w.state.ch2.(powerCode := code, power := code)));
        }
      case 13 => next := next.(vswr1 := Some(word));
      case 14 =>
        if w.vswr1.Some? {
          next := next.(vswr1 := None, state := w.state.(ch1 := w.state.ch1.(vswrCode := (w.vswr1.value * 0x1_0000 + word) % 0x1_0000)));
        }
      case 15 => next := next.(vswr2 := Some(word));
      case 16 =>
        if w.vswr2.Some? {
          next := next.(vswr2 := None, state := w.state.(ch2 := w.state.ch2.(vswrCode := (w.vswr2.value * 0x1_0000 + word) % 0x1_0000)));
        }
      case _ =>
        if 5 <= bit <= 12 {
          next := next.(state := w.state.(temperatures := w.state.temperatures[bit - 5 := Signed16(word)]));
        }
    }
  }

  lemma WordBytes(hi: byte, lo: byte)
    ensures Word(hi, lo) / 256 == hi && Word(hi, lo) % 256 == lo
  {
  }

  // ---------- The walk ----------

  // A bit whose word is not there leaves the words seen as they are.
  lemma SeenSkips(mask: nat, blocks: seq<seq<byte>>, bit: nat)
    requires bit < BITS && !Present(mask, blocks, bit)
    ensures Seen(mask, blocks, bit + 1) == Seen(mask, blocks, bit)
  {
    hide Present;
  }

  lemma SeenTakes(mask: nat, blocks: seq<seq<byte>>, bit: nat)
    requires bit < BITS && Present(mask, blocks, bit)
    ensures Ahead(Seen(mask, blocks, bit), bit)
    ensures Seen(mask, blocks, bit + 1) == Seen(mask, blocks, bit)[bit := WordAt(mask, blocks, bit)]
  {
    hide Present, Word;
  }

  // Once the blocks run out no later bit is present.
  lemma {:induction false} RankRises(mask: nat, bit: nat, later: nat)
    requires bit <= later
    ensures Rank(mask, bit) <= Rank(mask, later)
    decreases later - bit
  {
    if bit < later {
      RankRises(mask, bit, later - 1);
    }
  }

  lemma SeenAll(mask: nat, blocks: seq<seq<byte>>, bit: nat)
    requires bit <= BITS && |blocks| <= Rank(mask, bit)
    ensures Seen(mask, blocks, bit) == Seen(mask, blocks, BITS)
  {
    hide Bit, Word;
    forall later | bit <= later < BITS ensures WordAt(mask, blocks, later).None? {
      RankRises(mask, bit, later);
    }
  }

  lemma NothingSeen(s: FullState, address: Address, mask: nat, blocks: seq<seq<byte>>)
    requires |s.temperatures| == SENSORS
    ensures Standing(s, address, mask, Seen(mask, blocks, 0)) == Walk(s.(addressMask := address, validationMask := mask), None, None, None, None)
  {
    hide WordAt;
  }

  method Walked(s: FullState, address: Address, mask: nat, blocks: seq<seq<byte>>) returns (state: FullState)
    requires |s.temperatures| == SENSORS
    ensures state == Decoded(s, address, mask, Seen(mask, blocks, BITS))
  {
    hide Bit, Seen, Decoded;
    var w := Walk(s.(addressMask := address, validationMask := mask), None, None, None, None);
    NothingSeen(s, address, mask, blocks);
    var blockIdx := 0;
    for bit := 0 to BITS
      invariant blockIdx == Rank(mask, bit)
      invariant w == Standing(s, address, mask, Seen(mask, blocks, bit))
    {
      if !Bit(mask, bit) {
        SeenSkips(mask, blocks, bit);
        continue;
      }
      if blockIdx >= |blocks| {
        SeenAll(mask, blocks, bit);
        return w.state;
      }
      var block := blocks[blockIdx];
      blockIdx := blockIdx + 1;
      if |block| < 2 {
        SeenSkips(mask, blocks, bit);
        continue;
      }
      SeenTakes(mask, blocks, bit);
      w := Visit(w, bit, block, s, address, mask, Seen(mask, blocks, bit));
    }
    return w.state;
  }

  // ---------- The sixteen boards ----------

  // The board a one-bit address names, or -1.
  function IndexFrom(address: Address, i: nat): (index: int)
    requires i <= BOARDS
    ensures index == -1 || (i <= index < BOARDS && address == Pow2(index))
    ensures index == -1 ==> forall k: nat :: i <= k < BOARDS ==> address != Pow2(k)
    decreases BOARDS - i
  {
    if i == BOARDS then -1 else if address == Pow2(i) then i else IndexFrom(address, i + 1)
  }

  function Initial(settings: Settings, known: bool, state: FullState): Settings {
    if known then settings else settings.(power1 := state.ch1.power, power2 := state.ch2.power)
  }

  class StatusStore {
    const realStates: array<FullState>
    const userSettings: array<Settings>
    const settingsInitialized: array<bool>

    predicate Valid()
      reads realStates
    {
      && realStates.Length == BOARDS && userSettings.Length == BOARDS && settingsInitialized.Length == BOARDS
      && forall i :: 0 <= i < BOARDS ==> |realStates[i].temperatures| == SENSORS
    }

    constructor ()
      ensures Valid() && fresh(realStates) && fresh(userSettings) && fresh(settingsInitialized)
    {
      var idle := Channel(0, 0, 0, false);
      realStates := new FullState[BOARDS](_ => FullState(0, 0, [0, 0, 0, 0, 0, 0, 0, 0], idle, idle));
      userSettings := new Settings[BOARDS](_ => Settings(0, 0, false, false, false, false));
      settingsInitialized := new bool[BOARDS](_ => false);
    }

    method AddressToIndex(address: Address) returns (index: int)
      ensures index == IndexFrom(address, 0)
    {
      for i := 0 to BOARDS
        invariant IndexFrom(address, 0) == IndexFrom(address, i)
      {
        if address == Pow2(i) {
          return i;
        }
      }
      return -1;
    }

    method ProcessStatusData(address: Address, mask: nat, blocks: seq<seq<byte>>)
      requires Valid()
      modifies realStates, userSettings, settingsInitialized
      ensures Valid()
      ensures IndexFrom(address, 0) == -1 ==>
        realStates[..] == old(realStates[..]) && userSettings[..] == old(userSettings[..])
        && settingsInitialized[..] == old(settingsInitialized[..])
      ensures var i := IndexFrom(address, 0); i >= 0 ==>
        var state := Decoded(old(realStates[i]), address, mask, Seen(mask, blocks, BITS));
        && realStates[..] == old(realStates[..])[i := state]
        && userSettings[..] == old(userSettings[..])[i := Initial(old(userSettings[i]), old(settingsInitialized[i]), state)]
        && settingsInitialized[..] == old(settingsInitialized[..])[i := true]
        && (if old(settingsInitialized[i]) then userSettings[i] == old(userSettings[i])
            else userSettings[i].power1 == state.ch1.power && userSettings[i].power2 == state.ch2.power)
    {
      hide Seen, Tuned;
      var index := AddressToIndex(address);
      if index < 0 {
        return;
      }
      var state := Walked(realStates[index], address, mask, blocks);
      realStates[index] := state;
      if !settingsInitialized[index] {
        userSettings[index] := userSettings[index].(power1 := state.ch1.power, power2 := state.ch2.power);
        settingsInitialized[index] := true;
      }
    }
  }
}
