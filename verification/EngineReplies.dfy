/** Replies byte by byte: for every datagram a device or the bridge can send, the completion it
    causes first, written out in the bytes of the datagram. The states are the clean ones, which
    every reachable state is. */
module EngineReplies {
  import opened Protocol
  import opened EngineState
  import opened EngineSpec
  import opened EngineDatagram
  import StatusReply

  /** The first operation completed on the way from `s` to `t` is the live one of `a`, with this
      outcome. */
  predicate First(s: State, t: State, a: Address, outcome: Parse) {
    && Live(s, a) && |s.hist.completions| < |t.hist.completions|
    && t.hist.completions[|s.hist.completions|] ==
         Completion(a, s.contexts[a].command, outcome.ok, outcome.message, outcome.data)
  }

  predicate LiveIsYou(s: State, a: Address) { Live(s, a) && s.contexts[a].command.tech.IS_YOU? }

  // A live command of the plain kind, without data of its own.
  predicate LivePlain(s: State, a: Address, tech: TechCommand) { Live(s, a) && s.contexts[a].command.data.None? && s.contexts[a].command.tech == tech }

  lemma FromReaction(s: State, data: seq<byte>, a: Address, outcome: Parse)
    requires CleanState(s) && React(s, data).Completes? && React(s, data).address == a && React(s, data).outcome == outcome
    ensures First(s, Receive(s, data), a, outcome)
  {
    hide React, Receive, Cascades;
    DatagramObeys(s, data);
  }

  // ---------- The mask of the bridge ----------

  /** Two bytes are a mask, high byte first. An IS_YOU command gets the mask; any other command
      whose address happens to equal the mask fails; a mask no live command has for its address goes
      to address 0, as a success for IS_YOU only; and with nothing live there it is reported as a
      failed FU command. */
  lemma MaskArrives(s: State, x: byte, y: byte)
    requires CleanState(s)
    ensures var mask, t := x as int * 256 + y as int, Receive(s, [x, y]);
      if LiveIsYou(s, mask) then First(s, t, mask, Parse(true, MaskReport(mask), MaskData(mask)))
      else if Live(s, mask) then First(s, t, mask, Parse(false, UnexpectedBridge, NoData))
      else if Live(s, 0) then First(s, t, 0, Parse(s.contexts[0].command.tech.IS_YOU?, MaskReport(mask), MaskData(mask)))
      else t == s.(hist := s.hist.(fuReports := s.hist.fuReports + [FuReport(0, 0, false)]))
  {
    hide Receive, ReactToReply;
    var mask, data := x as int * 256 + y as int, [x, y];
    assert |data| == 2 && data[0] == x && data[1] == y && data != ERR;
    if LiveIsYou(s, mask) {
      FromReaction(s, data, mask, Parse(true, MaskReport(mask), MaskData(mask)));
    } else if Live(s, mask) {
      FromReaction(s, data, mask, Parse(false, UnexpectedBridge, NoData));
    } else if Live(s, 0) {
      FromReaction(s, data, 0, Parse(s.contexts[0].command.tech.IS_YOU?, MaskReport(mask), MaskData(mask)));
    } else {
      DatagramObeys(s, data);
    }
  }

  /** "ERR" fails whatever it completes: an IS_YOU on the address its bytes spell, any other command
      there as a device error, and otherwise the command of address 0. */
  lemma ErrFails(s: State)
    requires CleanState(s)
    ensures var t := Receive(s, [0x45, 0x52, 0x52]);
      if LiveIsYou(s, 0x4552) then First(s, t, 0x4552, Parse(false, BridgeErr, NoData))
      else if Live(s, 0x4552) then First(s, t, 0x4552, Parse(false, DeviceError(0x52), NoData))
      else if Live(s, 0) then First(s, t, 0, Parse(false, BridgeErr, NoData))
      else t == s.(hist := s.hist.(fuReports := s.hist.fuReports + [FuReport(0, 0, false)]))
  {
    hide Receive;
    var data: seq<byte> := [0x45, 0x52, 0x52];
    assert Word(data[0], data[1]) == 0x4552;
    if LiveIsYou(s, 0x4552) {
      FromReaction(s, data, 0x4552, Parse(false, BridgeErr, NoData));
    } else if Live(s, 0x4552) {
      FromReaction(s, data, 0x4552, Parse(false, DeviceError(0x52), NoData));
    } else if Live(s, 0) {
      FromReaction(s, data, 0, Parse(false, BridgeErr, NoData));
    } else {
      DatagramObeys(s, data);
    }
  }

  // ---------- Four bytes ----------

  /** Four bytes with an FU code in the third: only the FU side takes them as an answer, good exactly
      when the last byte is 1. A live IS_YOU fails on them, and any other live command reads them as
      its own device's reply, so a non-zero code is a device error. */
  lemma BridgeStatusArrives(s: State, x: byte, y: byte, code: byte, status: byte)
    requires CleanState(s) && code <= 2
    ensures var a, t := x as int * 256 + y as int, Receive(s, [x, y, code, status]);
      && (!Live(s, a) ==> t == s.(hist := s.hist.(fuReports := s.hist.fuReports + [FuReport(a, code, status == 1)])))
      && (LiveIsYou(s, a) ==> First(s, t, a, Parse(false, BridgeUnknown, NoData)))
      && (Live(s, a) && !LiveIsYou(s, a) && code != 0 ==> First(s, t, a, Parse(false, DeviceError(code), NoData)))
  {
    hide Receive, ParsePayload, CompletesOnOk;
    var a, data := x as int * 256 + y as int, [x, y, code, status];
    assert |data| == 4 && data[0] == x && data[1] == y && data[2] == code && data[3] == status && data != ERR;
    if !Live(s, a) {
      DatagramObeys(s, data);
    } else if LiveIsYou(s, a) {
      FromReaction(s, data, a, Parse(false, BridgeUnknown, NoData));
    } else if code != 0 {
      FromReaction(s, data, a, Parse(false, DeviceError(code), NoData));
    }
  }

  /** The engine's rule for a four-byte bridge answer to a live command: it succeeds exactly when the
      last byte is 1 or the command is IS_YOU. BridgeStatusArrives shows that no datagram gets as
      far as this rule while the command is live. */
  lemma BridgeStatusRule(s: State, a: Address, code: byte, status: byte)
    requires CleanState(s) && Live(s, a)
    ensures var ok := status == 1 || LiveIsYou(s, a);
      First(s, OnBridgeReply(s, BridgeStatus(a, code, status)), a, Parse(ok, if ok then Done else BridgeFailure, NoData))
  {
    hide OnBridgeReply;
    BridgeObeys(s, BridgeStatus(a, code, status));
  }

  // ---------- Replies of a device ----------

  /** A reply with a non-zero third byte fails with that byte as the device's error, whatever
      follows; only IS_YOU takes "ERR" and four bytes with an FU code for the bridge. */
  lemma DeviceErrorFails(s: State, x: byte, y: byte, status: byte, rest: seq<byte>)
    requires CleanState(s) && status != 0 && Live(s, x as int * 256 + y as int)
    requires LiveIsYou(s, x as int * 256 + y as int) ==> [x, y, status] + rest != [0x45, 0x52, 0x52] && (|rest| != 1 || status > 2)
    ensures First(s, Receive(s, [x, y, status] + rest), x as int * 256 + y as int, Parse(false, DeviceError(status), NoData))
  {
    hide Receive, ParsePayload, CompletesOnOk;
    var a, data := x as int * 256 + y as int, [x, y, status] + rest;
    assert |data| == 3 + |rest| && data[0] == x && data[1] == y && data[2] == status;
    FromReaction(s, data, a, Parse(false, DeviceError(status), NoData));
  }

  // What an acknowledged command reports: its own message if its handler completes it.
  function OkMessage(cmd: Command): Message {
    if cmd.data.Some? then Acknowledged(cmd.tech)
    else
      match cmd.tech
      case VOLUME | PROGRAMM | CLEAN | UPDATE | DROP | PRBS_M2S => Acknowledged(cmd.tech)
      case TS | TC | VERS | CHECKSUM | BER_T | BER_F | PRBS_S2M | FactoryNumber | IS_YOU => Done
  }

  /** An acknowledgement succeeds: three bytes for every command, four for every command but IS_YOU
      if the last is its code. One that ends in the code of any other command changes nothing. */
  lemma AcknowledgementSucceeds(s: State, x: byte, y: byte, echo: byte)
    requires CleanState(s) && Live(s, x as int * 256 + y as int)
    ensures var a := x as int * 256 + y as int;
      var cmd := s.contexts[a].command;
      && First(s, Receive(s, [x, y, 0]), a, Parse(true, OkMessage(cmd), NoData))
      && (!cmd.tech.IS_YOU? && echo == Code(cmd.tech) ==>
            First(s, Receive(s, [x, y, 0, echo]), a, Parse(true, OkMessage(cmd), NoData)))
      && (!cmd.tech.IS_YOU? && (exists other :: other != cmd.tech && echo == Code(other)) ==> Receive(s, [x, y, 0, echo]) == s)
  {
    hide Receive, ParsePayload, Code;
    var a := x as int * 256 + y as int;
    var cmd := s.contexts[a].command;
    var short, long := [x, y, 0], [x, y, 0, echo];
    assert |short| == 3 && short[0] == x && short[1] == y && short[2] == 0 && short != ERR;
    assert |long| == 4 && long[0] == x && long[1] == y && long[2] == 0 && long[3] == echo && long != ERR;
    FromReaction(s, short, a, Parse(true, OkMessage(cmd), NoData));
    if !cmd.tech.IS_YOU? {
      if echo == Code(cmd.tech) {
        FromReaction(s, long, a, Parse(true, OkMessage(cmd), NoData));
      }
      if other :| other != cmd.tech && echo == Code(other) {
        CodesDiffer(cmd.tech, other);
        DatagramObeys(s, long);
      }
    }
  }

  lemma CodesDiffer(tech: TechCommand, other: TechCommand)
    requires tech != other
    ensures Code(tech) != Code(other)
  {
  }

  lemma DataReaction(s: State, x: byte, y: byte, payload: seq<byte>)
    requires CleanState(s) && Live(s, x as int * 256 + y as int) && |payload| >= 2
    ensures var a := x as int * 256 + y as int;
      First(s, Receive(s, [x, y, 0] + payload), a, ParsePayload(s.contexts[a].command, payload, NoData))
  {
    hide Receive, ParsePayload, CompletesOnOk, CompletesOnData;
    var a, data := x as int * 256 + y as int, [x, y, 0] + payload;
    assert |data| == 3 + |payload| && data[0] == x && data[1] == y && data[2] == 0 && data[3..] == payload && data != ERR;
    FromReaction(s, data, a, ParsePayload(s.contexts[a].command, payload, NoData));
  }

  /** A device's own answer to IS_YOU carries the mask high byte first, too. */
  lemma MaskReplyArrives(s: State, x: byte, y: byte, hi: byte, lo: byte, rest: seq<byte>)
    requires CleanState(s) && LivePlain(s, x as int * 256 + y as int, IS_YOU)
    ensures First(s, Receive(s, [x, y, 0] + ([hi, lo] + rest)), x as int * 256 + y as int,
      Parse(true, Parsed(IS_YOU), MaskData(hi as int * 256 + lo as int)))
  {
    hide Receive;
    DataReaction(s, x, y, [hi, lo] + rest);
  }

  /** Every number a device can send completes its command with that number, low byte first,
      whatever follows; a four-byte number cut short fails. */
  lemma NumberCompletes(s: State, x: byte, y: byte, tech: TechCommand, n: nat, rest: seq<byte>)
    requires CleanState(s) && LivePlain(s, x as int * 256 + y as int, tech) && Width(tech) > 0 && n < Scale(Width(tech))
    ensures First(s, Receive(s, [x, y, 0] + (LittleBytes(n, Width(tech)) + rest)), x as int * 256 + y as int,
      Parse(true, Parsed(tech), Number(n)))
    ensures 2 <= |rest| < Width(tech) ==>
      First(s, Receive(s, [x, y, 0] + rest), x as int * 256 + y as int, Parse(false, NotParsed(tech), NoData))
  {
    hide Receive, LittleEndian, LittleBytes, Scale;
    NumberArrives(s.contexts[x as int * 256 + y as int].command, n, rest, NoData);
    DataReaction(s, x, y, LittleBytes(n, Width(tech)) + rest);
    if 2 <= |rest| < Width(tech) {
      DataReaction(s, x, y, rest);
    }
  }

  /** A status report arrives as the mask and blocks that were sent; one too short for its own mask
      fails. */
  lemma StatusCompletes(s: State, x: byte, y: byte, mask: nat, words: seq<Address>, rest: seq<byte>)
    requires CleanState(s) && LivePlain(s, x as int * 256 + y as int, TS)
    requires mask < 0x1_0000_0000 && |words| == StatusReply.BITS
    ensures First(s, Receive(s, [x, y, 0] + (StatusReply.Encode(mask, words) + rest)), x as int * 256 + y as int,
      Parse(true, Parsed(TS), StatusData(StatusReply.Status(mask, StatusReply.BlocksOf(mask, words, 0)))))
    ensures 2 <= |rest| && (|rest| < 4 || |rest| < 4 + 2 * StatusReply.Population(StatusReply.Mask32(rest), 0)) ==>
      First(s, Receive(s, [x, y, 0] + rest), x as int * 256 + y as int, Parse(false, NotParsed(TS), NoData))
  {
    hide Receive, StatusReply.Encode, StatusReply.Parse, StatusReply.BlocksOf, StatusReply.Mask32, StatusReply.Population;
    StatusReply.ParseEncoded(mask, words, rest);
    StatusReply.ParseSucceeds(StatusReply.Encode(mask, words) + rest);
    DataReaction(s, x, y, StatusReply.Encode(mask, words) + rest);
    if 2 <= |rest| && (|rest| < 4 || |rest| < 4 + 2 * StatusReply.Population(StatusReply.Mask32(rest), 0)) {
      StatusReply.ParseSucceeds(rest);
      DataReaction(s, x, y, rest);
    }
  }

  /** The bit-error stream is whole or refused: 1024 or 1025 bytes make 512 packets, any other length
      fails. */
  lemma PacketsComplete(s: State, x: byte, y: byte, payload: seq<byte>)
    requires CleanState(s) && LivePlain(s, x as int * 256 + y as int, PRBS_S2M) && |payload| >= 2
    ensures First(s, Receive(s, [x, y, 0] + payload), x as int * 256 + y as int,
      if 1024 <= |payload| <= 1025 then Parse(true, Parsed(PRBS_S2M), Packets(512)) else Parse(false, NotParsed(PRBS_S2M), NoData))
  {
    hide Receive;
    DataReaction(s, x, y, payload);
  }

  // Commands whose replies are not read.
  predicate Unread(cmd: Command) {
    cmd.data.Some? ||
    match cmd.tech
    case TC | VOLUME | PROGRAMM | CLEAN | UPDATE | PRBS_M2S => true
    case TS | VERS | CHECKSUM | BER_T | BER_F | PRBS_S2M | DROP | FactoryNumber | IS_YOU => false
  }

  /** The remaining commands, and those sent with data, take any data for a success. */
  lemma UnreadSucceeds(s: State, x: byte, y: byte, payload: seq<byte>)
    requires CleanState(s) && Live(s, x as int * 256 + y as int) && |payload| >= 2
    requires Unread(s.contexts[x as int * 256 + y as int].command)
    ensures var a := x as int * 256 + y as int;
      First(s, Receive(s, [x, y, 0] + payload), a, Parse(true, Parsed(s.contexts[a].command.tech), NoData))
  {
    hide Receive;
    DataReaction(s, x, y, payload);
  }

  // ---------- Everything else ----------

  /** A datagram nobody waits for changes nothing: fewer than two bytes, or a reply from an address
      with no live command that is not one of the bridge's three forms. */
  lemma StrayIgnored(s: State, data: seq<byte>)
    requires |data| >= 2 ==> !Live(s, data[0] as int * 256 + data[1] as int)
    requires |data| != 2 && data != [0x45, 0x52, 0x52] && (|data| != 4 || data[2] > 2)
    ensures Receive(s, data) == s
  {
    hide Report, OnTUReply, OnBridgeReply, Complete;
  }
}
