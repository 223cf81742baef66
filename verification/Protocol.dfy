/** The wire vocabulary shared by the engine, the controller and the firmware stream:
    command codes, masks of bit addresses, the two reply parsers of ProtocolAdapter
    and the request builders of PacketBuilder. */
module Protocol {

  type byte = x: int | 0 <= x < 0x100
  type Address = x: int | 0 <= x < 0x1_0000

  datatype Option<+T> = None | Some(value: T)

  datatype TechCommand =
    | TS | TC | VERS | VOLUME | CHECKSUM | PROGRAMM | CLEAN | UPDATE
    | PRBS_M2S | BER_T | BER_F | PRBS_S2M | DROP | FactoryNumber | IS_YOU

  function Code(tech: TechCommand): byte {
    match tech
    case TS => 0x00
    case TC => 0x01
    case VERS => 0x02
    case VOLUME => 0x03
    case CHECKSUM => 0x04
    case PROGRAMM => 0x05
    case CLEAN => 0x0A
    case UPDATE => 0x7E
    case PRBS_M2S => 0x0B
    case BER_T => 0x0C
    case BER_F => 0x0D
    case PRBS_S2M => 0x0E
    case DROP => 0x0F
    case FactoryNumber => 0x1F
    case IS_YOU => 0x20
  }

  // The factory knows every command but TC, which only travels with data.
  predicate Known(tech: TechCommand) { !tech.TC? }

  // ---------- Masks ----------

  /** The single-bit addresses of a mask in ascending order: `m` is the mask shifted
      right so that its low bit stands for the address `unit`. */
  function TargetsFrom(m: nat, unit: nat): (targets: seq<Address>)
    requires 0 < unit
    decreases 0x1_0000 - unit
  {
    if unit > 0x8000 then []
    else if m % 2 == 1 then [unit] + TargetsFrom(m / 2, unit * 2)
    else TargetsFrom(m / 2, unit * 2)
  }

  function Targets(mask: Address): (targets: seq<Address>) { TargetsFrom(mask, 1) }

  function TargetSet(mask: Address): set<Address> { set a | a in Targets(mask) }

  predicate Distinct<T(==)>(s: seq<T>) { forall i, j :: 0 <= i < j < |s| ==> s[i] != s[j] }

  lemma {:induction false} TargetsFromAscending(m: nat, unit: nat)
    requires 0 < unit
    ensures Distinct(TargetsFrom(m, unit))
    ensures forall a :: a in TargetsFrom(m, unit) ==> unit <= a
    decreases 0x1_0000 - unit
  {
    if unit <= 0x8000 {
      TargetsFromAscending(m / 2, unit * 2);
      var rest := TargetsFrom(m / 2, unit * 2);
      assert forall j :: 0 <= j < |rest| ==> rest[j] in rest;
    }
  }

  function Pow2(k: nat): (p: nat)
    ensures 0 < p
  {
    if k == 0 then 1 else 2 * Pow2(k - 1)
  }

  // With k bits left to test, a mask without targets is zero.
  lemma {:induction false} TargetsFromEmpty(m: nat, unit: nat, k: nat)
    requires unit * Pow2(k) == 0x1_0000
    requires m < Pow2(k)
    requires 0 < unit && TargetsFrom(m, unit) == []
    ensures m == 0
    decreases k
  {
    if k > 0 {
      var p := Pow2(k - 1);
      assert unit * (2 * p) == (unit * 2) * p;
      assert unit * 2 <= (unit * 2) * p;
      TargetsFromEmpty(m / 2, unit * 2, k - 1);
    }
  }

  // Every target of a mask is a distinct non-zero address, and only the empty mask has none.
  lemma TargetsSound(mask: Address)
    ensures Distinct(Targets(mask))
    ensures 0 !in Targets(mask)
    ensures Targets(mask) == [] <==> mask == 0
  {
    TargetsFromAscending(mask, 1);
    if Targets(mask) == [] {
      assert Pow2(8) == 256;
      assert Pow2(16) == 0x1_0000;
      TargetsFromEmpty(mask, 1, 16);
    }
    if mask == 0 {
      ZeroMask(1);
    }
  }

  lemma {:induction false} ZeroMask(unit: nat)
    requires 0 < unit
    ensures TargetsFrom(0, unit) == []
    decreases 0x1_0000 - unit
  {
    if unit <= 0x8000 {
      ZeroMask(unit * 2);
    }
  }

  // ---------- Reply parsers ----------

  function Word(hi: byte, lo: byte): Address { hi * 256 + lo }

  datatype Reply =
    | OkReply(address: Address, echo: Option<byte>)
    | ErrorReply(address: Address, status: byte)
    | DataReply(address: Address, payload: seq<byte>)

  /** A reply of one device: [address:2][status:1], four bytes when the command is echoed,
      longer when data follow. */
  function ParseTUResponse(data: seq<byte>): Option<Reply> {
    if |data| < 3 then None
    else
      var address := Word(data[0], data[1]);
      if data[2] != 0 then Some(ErrorReply(address, data[2]))
      else if |data| == 3 then Some(OkReply(address, None))
      else if |data| == 4 then Some(OkReply(address, Some(data[3])))
      else Some(DataReply(address, data[3..]))
  }

  datatype BridgeReply =
    | BridgeError
    | BridgeMask(mask: Address)
    | BridgeStatus(address: Address, command: byte, status: byte)

  const ERR: seq<byte> := [0x45, 0x52, 0x52]

  function ParseBridgeResponse(data: seq<byte>): Option<BridgeReply> {
    if data == ERR then Some(BridgeError)
    else if |data| == 2 then Some(BridgeMask(Word(data[0], data[1])))
    else if |data| != 4 || data[2] > 0x02 then None
    else Some(BridgeStatus(Word(data[0], data[1]), data[2], data[3]))
  }

  function BridgeAddress(reply: BridgeReply): Address {
    if reply.BridgeStatus? then reply.address else 0
  }
}
