/** From chunks of firmware to the VOLUME packets on the wire, and a receiver that takes them
    apart again. */
module FirmwareWire {
  import opened Protocol
  import opened OctetBits
  import opened HexImage
  import opened Crc24
  import ShiftRegister

  const PER_VOLUME := 64
  const HEADER := 8

  // ---------- Volumes ----------

  // Sixty-four chunks at a time, joined.
  function Volumes(blocks: seq<seq<byte>>): seq<seq<byte>> {
    if blocks == [] then []
    else if |blocks| <= PER_VOLUME then [Flatten(blocks)]
    else [Flatten(blocks[..PER_VOLUME])] + Volumes(blocks[PER_VOLUME..])
  }

  predicate VolumeSized(volumes: seq<seq<byte>>) {
    forall i :: 0 <= i < |volumes| ==> 1 <= |volumes[i]| <= PER_VOLUME * CHUNK
  }

  lemma {:induction false} FlattenSized(blocks: seq<seq<byte>>)
    requires Sized(blocks)
    ensures |blocks| <= |Flatten(blocks)| <= CHUNK * |blocks|
  {
    if blocks != [] {
      var front := blocks[..|blocks| - 1];
      assert 1 <= |blocks[|blocks| - 1]| <= CHUNK;
      FlattenSized(front);
    }
  }

  /** Volumes hold the bytes of the chunks in order; sized chunks give volumes of 1 to 1024 bytes,
      one for every sixty-four chunks begun. */
  lemma {:induction false} VolumesKeepBytes(blocks: seq<seq<byte>>)
    requires Sized(blocks)
    ensures Flatten(Volumes(blocks)) == Flatten(blocks)
    ensures VolumeSized(Volumes(blocks))
    ensures |Volumes(blocks)| == (|blocks| + PER_VOLUME - 1) / PER_VOLUME
  {
    if 0 < |blocks| <= PER_VOLUME {
      FlattenSized(blocks);
      FlattenOne(Flatten(blocks));
    } else if blocks != [] {
      var first, rest := blocks[..PER_VOLUME], blocks[PER_VOLUME..];
      FlattenSized(first);
      VolumesKeepBytes(rest);
      FlattenConcat(first, rest);
      assert blocks == first + rest;
      FlattenConcat([Flatten(first)], Volumes(rest));
      FlattenOne(Flatten(first));
    }
  }

  lemma NextVolume(blocks: seq<seq<byte>>, size: nat)
    requires blocks != [] && size == if PER_VOLUME <= |blocks| then PER_VOLUME else |blocks|
    ensures Volumes(blocks) == [Flatten(blocks[..size])] + Volumes(blocks[size..])
  {
    if |blocks| <= PER_VOLUME {
      assert blocks[..size] == blocks && blocks[size..] == [];
    }
  }

  method JoinBlocks(blocks: seq<seq<byte>>, start: nat, end: nat) returns (volume: seq<byte>)
    requires start <= end <= |blocks|
    ensures volume == Flatten(blocks[start..end])
  {
    volume := [];
    for i := start to end
      invariant volume == Flatten(blocks[start..i])
    {
      assert blocks[start..i + 1] == blocks[start..i] + [blocks[i]];
      FlattenConcat(blocks[start..i], [blocks[i]]);
      FlattenOne(blocks[i]);
      volume := volume + blocks[i];
    }
  }

  method BuildVolumePayloads(blocks: seq<seq<byte>>) returns (payloads: seq<seq<byte>>)
    ensures payloads == Volumes(blocks)
  {
    hide Volumes;
    payloads := [];
    var count := (|blocks| + PER_VOLUME - 1) / PER_VOLUME;
    for v := 0 to count
      invariant payloads + Volumes(blocks[Least(v * PER_VOLUME, |blocks|)..]) == Volumes(blocks)
    {
      var start := v * PER_VOLUME;
      var end := Least(start + PER_VOLUME, |blocks|);
      NextVolume(blocks[start..], end - start);
      assert blocks[start..][..end - start] == blocks[start..end] && blocks[start..][end - start..] == blocks[end..];
      var volume := JoinBlocks(blocks, start, end);
      payloads := payloads + [volume];
    }
    NoVolumes(blocks[|blocks|..]);
  }

  lemma NoVolumes(blocks: seq<seq<byte>>)
    ensures blocks == [] ==> Volumes(blocks) == []
  {
  }

  function Least(x: nat, y: nat): nat { if x <= y then x else y }

  // ---------- Requests ----------

  // BaseRequest: address (big-endian), command, sign, fu_period and fu_data.
  function BaseRequest(address: Address, command: byte, sign: byte, period: byte, fu: seq<byte>): (r: seq<byte>)
    requires |fu| == 3
    ensures |r| == HEADER
  {
    [address / 256, address % 256, command, sign, period] + fu
  }

  const SIGN_TU: byte := 0

  // What setCurrentVolumeData leaves behind.
  datatype Staged = Empty | Staged(payload: seq<byte>, marker: byte, total: Address, crc: nat)

  function FuData(marker: byte, total: Address, crc: nat): (fu: seq<byte>)
    ensures |fu| == 3
  {
    if marker == 1 then [total / 256, total % 256, 0]
    else if marker == 3 then [crc / 0x1_0000 % 0x100, crc / 0x100 % 0x100, crc % 0x100]
    else [0, 0, 0]
  }

  function Request(staged: Staged, address: Address): seq<byte> {
    if staged.Empty? then []
    else
      BaseRequest(address, Code(VOLUME), SIGN_TU, staged.marker, FuData(staged.marker, staged.total, staged.crc)) + staged.payload
  }

  // The three bytes of a checksum joined as setCurrentVolumeData joins them.
  function Joined(crc: seq<byte>): nat
    requires |crc| == 3
  {
    crc[0] as int * 0x1_0000 + crc[1] as int * 0x100 + crc[2] as int
  }

  /** The static fields of VolumeCommand. */
  class VolumeCommand {
    var payload: seq<byte>
    var marker: byte
    var total: Address
    var crc: nat
    var useCustomData: bool

    ghost function Model(): Staged
      reads this
    {
      if useCustomData then Staged(payload, marker, total, crc) else Empty
    }

    constructor ()
      ensures Model() == Empty
    {
      payload, marker, total, crc, useCustomData := [], 0, 0, 0, false;
    }

    method SetCurrentVolumeData(payload: seq<byte>, marker: byte, total: Address, data: seq<byte>)
      requires |data| == 3
      modifies this
      ensures Model() == Staged(payload, marker, total, Joined(data))
    {
      this.payload, this.marker, this.total := payload, marker, total;
      crc := data[0] as int * 0x1_0000 + data[1] as int * 0x100 + data[2] as int;
      useCustomData := true;
    }

    method ClearCurrentVolumeData()
      modifies this
      ensures Model() == Empty
    {
      payload, marker, total, crc, useCustomData := [], 0, 0, 0, false;
    }

    method BuildRequest(address: Address) returns (packet: seq<byte>)
      ensures packet == Request(Model(), address)
    {
      if !useCustomData {
        return [];
      }
      var fu: seq<byte> := [0, 0, 0];
      if marker == 1 {
        fu := [total / 256, total % 256, 0];
      } else if marker == 3 {
        fu := [crc / 0x1_0000 % 0x100, crc / 0x100 % 0x100, crc % 0x100];
      }
      return BaseRequest(address, Code(VOLUME), SIGN_TU, marker, fu) + payload;
    }
  }

  // ---------- The stream of one update ----------

  // The checksum as the controller cuts it into bytes.
  function CrcBytes(crc: bv32): (bytes: seq<byte>)
    ensures |bytes| == 3
  {
    [Number(((crc >> 16) & 0xFF) as bv8), Number(((crc >> 8) & 0xFF) as bv8), Number((crc & 0xFF) as bv8)]
  }

  function VersionBytes(version: nat): (bytes: seq<byte>)
    ensures |bytes| == 4
  {
    [version / 0x100_0000 % 0x100, version / 0x1_0000 % 0x100, version / 0x100 % 0x100, version % 0x100]
  }

  // What the controller stages for the volume `i`, and after the last one.
  function StageVolume(volumes: seq<seq<byte>>, i: nat, crc: seq<byte>): Staged
    requires i < |volumes| <= 0xFFFF && |crc| == 3
  {
    Staged(volumes[i], if i == 0 then 1 else 2, if i == 0 then |volumes| else 0,
      if i == |volumes| - 1 then Joined(crc) else 0)
  }

  function StageVersion(version: nat, crc: seq<byte>): Staged
    requires |crc| == 3
  {
    Staged(VersionBytes(version), 3, 0, Joined(crc))
  }

  function VolumePacket(volumes: seq<seq<byte>>, i: nat, crc: seq<byte>): seq<byte>
    requires i < |volumes| <= 0xFFFF && |crc| == 3
  {
    Request(StageVolume(volumes, i, crc), 0)
  }

  function FinalPacket(version: nat, crc: seq<byte>): seq<byte>
    requires |crc| == 3
  {
    Request(StageVersion(version, crc), 0)
  }

  function Stream(volumes: seq<seq<byte>>, crc: seq<byte>, version: nat): seq<seq<byte>>
    requires |volumes| <= 0xFFFF && |crc| == 3
  {
    seq(|volumes|, i requires 0 <= i < |volumes| => VolumePacket(volumes, i, crc)) + [FinalPacket(version, crc)]
  }

  // ---------- A receiver ----------

  datatype Frame = Frame(marker: byte, fu: seq<byte>, payload: seq<byte>)

  predicate IsVolume(packet: seq<byte>) {
    |packet| >= HEADER && packet[0] == 0 && packet[1] == 0 && packet[2] == Code(VOLUME) && packet[3] == SIGN_TU
  }

  function Parts(packet: seq<byte>): Frame
    requires IsVolume(packet)
  {
    Frame(packet[4], packet[5..HEADER], packet[HEADER..])
  }

  datatype Upload = Upload(data: seq<byte>, version: nat)

  function Payloads(packets: seq<seq<byte>>): seq<byte>
    requires forall i :: 0 <= i < |packets| ==> IsVolume(packets[i])
  {
    if packets == [] then [] else Payloads(packets[..|packets| - 1]) + Parts(packets[|packets| - 1]).payload
  }

  // The marker each packet of a complete transfer carries.
  function Marker(i: nat, n: nat): byte { if i == n - 1 then 3 else if i == 0 then 1 else 2 }

  predicate Framed(packets: seq<seq<byte>>) {
    && |packets| >= 2
    && forall i :: 0 <= i < |packets| ==> IsVolume(packets[i]) && Parts(packets[i]).marker == Marker(i, |packets|)
  }

  // What a transfer delivers: the bytes of the data packets, if their number is the one the first
  // header announces and their checksum the one the last header carries, and the version.
  function Receive(packets: seq<seq<byte>>): Option<Upload> {
    if !Framed(packets) then None
    else
      var n := |packets| - 1;
      var first, final := Parts(packets[0]), Parts(packets[n]);
      var data := Payloads(packets[..n]);
      if Word(first.fu[0], first.fu[1]) != n || final.fu != CrcBytes(Checksum(data)) || |final.payload| != 4 then None
      else Some(Upload(data, BigEndian(final.payload)))
  }

  function BigEndian(bytes: seq<byte>): nat
    requires |bytes| == 4
  {
    bytes[0] as int * 0x100_0000 + bytes[1] as int * 0x1_0000 + bytes[2] as int * 0x100 + bytes[3] as int
  }

  // ---------- The receiver gets what the controller sends ----------

  lemma Splits(b0: byte, b1: byte, b2: byte)
    ensures var n := b0 as int * 0x1_0000 + b1 as int * 0x100 + b2 as int;
      n / 0x1_0000 % 0x100 == b0 && n / 0x100 % 0x100 == b1 && n % 0x100 == b2
  {
  }

  lemma VersionKept(version: nat)
    requires version < 0x1_0000_0000
    ensures BigEndian(VersionBytes(version)) == version
  {
    var a, b, c := version / 0x100, version / 0x1_0000, version / 0x100_0000;
    assert b == a / 0x100 && c == b / 0x100;
  }

  lemma CountKept(n: nat)
    requires n <= 0xFFFF
    ensures Word(n / 256, n % 256) == n
  {
  }

  lemma PacketParts(staged: Staged)
    requires staged.Staged?
    ensures IsVolume(Request(staged, 0))
    ensures Parts(Request(staged, 0)) == Frame(staged.marker, FuData(staged.marker, staged.total, staged.crc), staged.payload)
  {
    var packet := Request(staged, 0);
    assert packet[5..HEADER] == FuData(staged.marker, staged.total, staged.crc);
    assert packet[HEADER..] == staged.payload;
  }

  lemma {:induction false} StreamPayloads(volumes: seq<seq<byte>>, crc: seq<byte>, packets: seq<seq<byte>>)
    requires |crc| == 3
    requires |packets| == |volumes|
    requires forall i :: 0 <= i < |packets| ==> IsVolume(packets[i]) && Parts(packets[i]).payload == volumes[i]
    ensures Payloads(packets) == Flatten(volumes)
  {
    if packets != [] {
      StreamPayloads(volumes[..|volumes| - 1], crc, packets[..|packets| - 1]);
    }
  }

  lemma StreamFramed(volumes: seq<seq<byte>>, crc: seq<byte>, version: nat)
    requires 1 <= |volumes| <= 0xFFFF && |crc| == 3
    ensures var packets := Stream(volumes, crc, version); var n := |volumes|;
      && Framed(packets) && |packets| == n + 1
      && (forall i :: 0 <= i < n ==> Parts(packets[i]).payload == volumes[i])
      && Parts(packets[0]).fu == [n / 256, n % 256, 0]
      && Parts(packets[n]) == Frame(3, crc, VersionBytes(version))
  {
    var packets, n := Stream(volumes, crc, version), |volumes|;
    forall i | 0 <= i < n
      ensures IsVolume(packets[i]) && Parts(packets[i]).payload == volumes[i] && Parts(packets[i]).marker == if i == 0 then 1 else 2
    {
      PacketParts(StageVolume(volumes, i, crc));
    }
    PacketParts(StageVolume(volumes, 0, crc));
    PacketParts(StageVersion(version, crc));
    Splits(crc[0], crc[1], crc[2]);
  }

  lemma DeliveredWhen(packets: seq<seq<byte>>, n: nat, data: seq<byte>, version: nat)
    requires Framed(packets) && |packets| == n + 1 && n <= 0xFFFF && version < 0x1_0000_0000
    requires Parts(packets[0]).fu == [n / 256, n % 256, 0]
    requires Parts(packets[n]) == Frame(3, CrcBytes(Checksum(data)), VersionBytes(version))
    requires Payloads(packets[..n]) == data
    ensures Receive(packets) == Some(Upload(data, version))
  {
    hide CrcBytes, Checksum, IsVolume, VersionBytes, BigEndian;
    CountKept(n);
    VersionKept(version);
  }

  /** Whatever the volumes, the receiver gets back their bytes and the version code, having checked
      their number and their checksum. */
  lemma StreamDelivers(volumes: seq<seq<byte>>, version: nat)
    requires 1 <= |volumes| <= 0xFFFF && version < 0x1_0000_0000
    ensures Receive(Stream(volumes, CrcBytes(Checksum(Flatten(volumes))), version)) == Some(Upload(Flatten(volumes), version))
  {
    hide Checksum, CrcBytes, Stream, Receive, VersionBytes, IsVolume;
    var crc := CrcBytes(Checksum(Flatten(volumes)));
    var packets, n := Stream(volumes, crc, version), |volumes|;
    StreamFramed(volumes, crc, version);
    StreamPayloads(volumes, crc, packets[..n]);
    DeliveredWhen(packets, n, Flatten(volumes), version);
  }

  /** A transfer that lost data packets is never taken for complete. */
  lemma LossDetected(volumes: seq<seq<byte>>, crc: seq<byte>, version: nat, packets: seq<seq<byte>>)
    requires 1 <= |volumes| <= 0xFFFF && |crc| == 3
    requires 0 < |packets| < |volumes| + 1 && packets[0] == Stream(volumes, crc, version)[0]
    ensures Receive(packets).None?
  {
    StreamFramed(volumes, crc, version);
  }

  // ---------- Corruption ----------

  lemma CrcBytesApart(c: bv32, d: bv32)
    requires CrcBytes(c) == CrcBytes(d)
    ensures Masked(c) == Masked(d)
  {
    PatternKept(((c >> 16) & 0xFF) as bv8);
    PatternKept(((d >> 16) & 0xFF) as bv8);
    PatternKept(((c >> 8) & 0xFF) as bv8);
    PatternKept(((d >> 8) & 0xFF) as bv8);
    PatternKept((c & 0xFF) as bv8);
    PatternKept((d & 0xFF) as bv8);
    assert CrcBytes(c)[0] == CrcBytes(d)[0] && CrcBytes(c)[1] == CrcBytes(d)[1] && CrcBytes(c)[2] == CrcBytes(d)[2];
    SameBytes(c, d);
  }

  lemma SameBytes(c: bv32, d: bv32)
    requires ((c >> 16) & 0xFF) as bv8 == ((d >> 16) & 0xFF) as bv8
    requires ((c >> 8) & 0xFF) as bv8 == ((d >> 8) & 0xFF) as bv8
    requires (c & 0xFF) as bv8 == (d & 0xFF) as bv8
    ensures c & 0xFF_FFFF == d & 0xFF_FFFF
  {
  }

  lemma MaskedTwice(c: bv32)
    ensures Masked(Masked(c)) == Masked(c)
  {
  }

  /** A transfer whose data differ from the image only inside three consecutive bytes, wherever the
      packets are cut, is never delivered. */
  lemma CorruptionDetected(image: seq<byte>, packets: seq<seq<byte>>, at: nat)
    requires Framed(packets)
    requires Parts(packets[|packets| - 1]).fu == CrcBytes(Checksum(image))
    requires var got := Payloads(packets[..|packets| - 1]); ShiftRegister.SameOutside(image, got, at) && got != image
    ensures Receive(packets).None?
  {
    var got := Payloads(packets[..|packets| - 1]);
    ThreeByteErrorsDetected(image, got, at);
    if CrcBytes(Checksum(image)) == CrcBytes(Checksum(got)) {
      CrcBytesApart(Checksum(image), Checksum(got));
      MaskedTwice(Loop(RFC_POLY, Bits(image)));
      MaskedTwice(Loop(RFC_POLY, Bits(got)));
    }
  }
}
