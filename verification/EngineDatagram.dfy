/** One datagram: which operation it completes, with what outcome, and exactly when it completes
    no more than that one. */
module EngineDatagram {
  import opened Protocol
  import opened EngineState
  import opened EngineSpec

  /** What a datagram does to the engine: nothing, a report about an FU command, or the
      completion of the live command of one address. `again` marks a command whose own handler
      completes it, after which the engine looks at the address once more; `unstages` marks the
      acknowledgement of a plain VOLUME command, which drops the staged volume first. */
  datatype Reaction =
    | Ignored
    | FuReply(address: Address, command: byte, ok: bool)
    | Completes(address: Address, outcome: Parse, again: bool, unstages: bool)

  predicate Plainly(cmd: Command, tech: TechCommand) { cmd.data.None? && cmd.tech == tech }

  function ReactToReply(cmd: Command, a: Address, reply: Reply): Reaction {
    match reply
    case ErrorReply(_, status) => Completes(a, Parse(false, DeviceError(status), NoData), false, false)
    case OkReply(_, echo) =>
      if echo.Some? && echo.value != Code(cmd.tech) then Ignored
      else if CompletesOnOk(cmd) then Completes(a, Parse(true, Acknowledged(cmd.tech), NoData), true, Plainly(cmd, VOLUME))
      else Completes(a, Parse(true, Done, NoData), false, false)
    case DataReply(_, payload) => Completes(a, ParsePayload(cmd, payload, NoData), CompletesOnData(cmd), false)
  }

  // The reaction depends on the commands live at the address of the datagram and at address 0 only.
  function React(s: State, data: seq<byte>): Reaction {
    if |data| < 2 then Ignored
    else
      var a := Word(data[0], data[1]);
      var tu := ParseTUResponse(data);
      var bridge := ParseBridgeResponse(data);
      if Live(s, a) && s.contexts[a].command.tech.IS_YOU? && bridge.Some?
      then Completes(a, IsYouReport(bridge.value), false, false)
      else if Live(s, a) && tu.Some? then ReactToReply(s.contexts[a].command, a, tu.value)
      else if Live(s, a) && bridge.Some? then Completes(a, Parse(false, UnexpectedBridge, NoData), false, false)
      else if bridge.None? then Ignored
      else ReactToBridge(s, bridge.value)
  }

  function ReactToBridge(s: State, bridge: BridgeReply): Reaction {
    var b := BridgeAddress(bridge);
    if Live(s, b) then Completes(b, BridgeReport(s.contexts[b].command, bridge), false, false)
    else
      match bridge
      case BridgeStatus(x, command, status) => FuReply(x, command, status == 1)
      case _ => FuReply(0, 0, false)
  }

  // ---------- How many operations a completion completes ----------

  // The first deferred group only waits for `a`.
  predicate Unblocks(s: State, a: Address) {
    s.pending != [] && s.pending[0].mask != 0 && forall b | b in Targets(s.pending[0].mask) :: b == a || Available(s, b)
  }

  function New(s: State, t: State): int { |t.hist.completions| - |s.hist.completions| }

  // One start of a group command with a request: refused on a busy address, else armed.
  lemma ArmedOrDropped(s: State, b: Address, g: Group)
    requires !Hollow(s, g.tech)
    ensures var cmd := NewCommand(s, g.tech, None, g.id);
      Exec(Create(s), b, cmd, true, false) ==
        if Available(s, b) then Arm(Begin(Create(s), b, cmd, true), b) else Drop(Create(s), cmd)
  {
    hide Complete, Targets;
  }

  lemma ArmedStart(s: State, b: Address, g: Group, a: Address)
    requires !Hollow(s, g.tech)
    ensures var t := Exec(Create(s), b, NewCommand(s, g.tech, None, g.id), true, false);
      && t.hist.completions == s.hist.completions && t.staged == s.staged
      && (Live(t, a) <==> Live(s, a) || (a == b && Available(s, a)))
      && (a != b ==> (Available(t, a) <==> Available(s, a)))
  {
    hide Exec, Hollow;
    ArmedOrDropped(s, b, g);
  }

  // Starting a group with a request completes nothing and leaves its available targets live.
  lemma {:induction false} LoopSilent(s: State, todo: seq<Address>, g: Group, a: Address)
    requires !Hollow(s, g.tech) && Distinct(todo)
    ensures StartLoop(s, todo, g).hist.completions == s.hist.completions
    ensures Live(StartLoop(s, todo, g), a) <==> Live(s, a) || (a in todo && Available(s, a))
    decreases |todo|
  {
    if todo != [] {
      var t := Exec(Create(s), todo[0], NewCommand(s, g.tech, None, g.id), true, false);
      ArmedStart(s, todo[0], g, a);
      LoopSilent(t, todo[1..], g, a);
      assert a in todo <==> a == todo[0] || a in todo[1..];
    }
  }

  // Completing always adds its own completion first.
  lemma CompleteFirst(s: State, a: Address, ok: bool, msg: Message)
    requires Live(s, a)
    ensures var t := Complete(s, a, ok, msg);
      var p := s.contexts[a].parsed;
      && New(s, t) >= 1
      && t.hist.completions[|s.hist.completions|] ==
           Completion(a, s.contexts[a].command, ok, if p.message == NoText then msg else p.message, p.data)
  {
    var u := Settle(Finish(s, a, ok, msg), a, ok);
    assert |u.hist.completions| == |s.hist.completions| + 1;
    assert u.hist.completions <= Complete(s, a, ok, msg).hist.completions;
  }

  // After the result is recorded, the first deferred group can start iff it only waited for `a`.
  lemma SettledCanStart(s: State, a: Address, ok: bool, msg: Message)
    requires Live(s, a)
    ensures var u := Settle(Finish(s, a, ok, msg), a, ok);
      && u.pending == s.pending && u.staged == s.staged && |u.hist.completions| == |s.hist.completions| + 1 && !Live(u, a)
      && Available(u, a)
      && (s.pending != [] && CanStart(u, s.pending[0].mask) <==> Unblocks(s, a))
  {
    var u := Settle(Finish(s, a, ok, msg), a, ok);
    assert forall b :: b != a ==> (Available(u, b) <==> Available(s, b));
  }

  // Starting a group without a request completes at least one operation.
  lemma HollowStarts(s: State, g: Group)
    requires CanStart(s, g.mask) && Hollow(s, g.tech)
    ensures New(s, StartGroup(s, g)) >= 1
  {
    TargetsSound(g.mask);
    var todo := Targets(g.mask);
    var o := OpenGroup(s, g);
    var cmd := NewCommand(o, g.tech, None, g.id);
    var b := Begin(Create(o), todo[0], cmd, true);
    assert Available(s, todo[0]);
    assert Available(Create(o), todo[0]) && EmptyRequest(b, cmd);
    assert Live(b, todo[0]) && b.hist.completions == s.hist.completions;
    CompleteFirst(b, todo[0], false, NotBuilt);
    var e := Exec(Create(o), todo[0], cmd, true, false);
    assert e == Begun(b, todo[0], cmd, true, false) == Complete(b, todo[0], false, NotBuilt);
    assert StartLoop(o, todo, g) == StartLoop(e, todo[1..], g);
  }

  // What releasing the first deferred group completes, and whether it leaves `a` live.
  lemma ReleaseCount(u: State, a: Address)
    requires !Live(u, a) && Available(u, a) && u.pending != [] && CanStart(u, u.pending[0].mask)
    ensures New(u, TryStart(u)) == 0 <==> !Hollow(u, u.pending[0].tech)
    ensures !Hollow(u, u.pending[0].tech) ==> (Live(TryStart(u), a) <==> a in Targets(u.pending[0].mask))
  {
    var g, p := u.pending[0], PopPending(u);
    assert CanStart(p, g.mask);
    if Hollow(u, g.tech) {
      HollowStarts(p, g);
    } else {
      TargetsSound(g.mask);
      assert Available(OpenGroup(p, g), a) && !Live(OpenGroup(p, g), a);
      LoopSilent(OpenGroup(p, g), Targets(g.mask), g, a);
    }
  }

  /** Exactly one operation is completed unless that releases a deferred group without a request. */
  lemma CompleteCount(s: State, a: Address, ok: bool, msg: Message)
    requires Live(s, a)
    ensures New(s, Complete(s, a, ok, msg)) == 1 <==> !(Unblocks(s, a) && Hollow(s, s.pending[0].tech))
    ensures !(Unblocks(s, a) && Hollow(s, s.pending[0].tech)) ==>
      (Live(Complete(s, a, ok, msg), a) <==> Unblocks(s, a) && a in Targets(s.pending[0].mask))
  {
    var u := Settle(Finish(s, a, ok, msg), a, ok);
    SettledCanStart(s, a, ok, msg);
    CompleteRelease(s, a, ok, msg);
    if Unblocks(s, a) {
      ReleaseCount(u, a);
    } else {
      assert TryStart(u) == u;
    }
  }

  lemma CompleteRelease(s: State, a: Address, ok: bool, msg: Message)
    requires Live(s, a)
    ensures var t, v := Complete(s, a, ok, msg), TryStart(Settle(Finish(s, a, ok, msg), a, ok));
      t.hist.completions == v.hist.completions && (Live(t, a) <==> Live(v, a))
  {
  }

  /** When completing the command of `a` completes more: it releases the first deferred group, and
      that group has no request, or it includes `a` and the engine looks at `a` once more. */
  predicate Cascades(s: State, a: Address, again: bool) {
    Unblocks(s, a) && (Hollow(s, s.pending[0].tech) || (again && a in Targets(s.pending[0].mask)))
  }

  /** From `s` to `t` the live command of `a` was completed with the given outcome, as the first
      completion, and the only one exactly when it does not cascade from `base`. */
  ghost predicate Effect(s: State, base: State, a: Address, outcome: Parse, again: bool, t: State) {
    && Live(s, a) && New(s, t) >= 1 && s.hist.completions <= t.hist.completions
    && t.hist.completions[|s.hist.completions|] ==
         Completion(a, s.contexts[a].command, outcome.ok, outcome.message, outcome.data)
    && (New(s, t) == 1 <==> !Cascades(base, a, again))
  }

  // `t` follows a completion of `a`, perhaps after a second look at the address.
  ghost predicate Follows(s: State, a: Address, ok: bool, msg: Message, again: bool, t: State) {
    var u := Complete(s, a, ok, msg);
    if again && Live(u, a) then exists x, m :: t == Complete(u, a, x, m) else t == u
  }

  // A completion of a clean context.
  lemma PlainEffect(s: State, a: Address, ok: bool, msg: Message, again: bool, t: State)
    requires Live(s, a) && s.contexts[a].parsed == NoParse && Follows(s, a, ok, msg, again, t)
    ensures Effect(s, s, a, Parse(ok, msg, NoData), again, t)
  {
    hide Targets, Complete;
    var u := Complete(s, a, ok, msg);
    CompleteFirst(s, a, ok, msg);
    CompleteCount(s, a, ok, msg);
    if again && Live(u, a) {
      var x, m :| t == Complete(u, a, x, m);
      CompleteFirst(u, a, x, m);
    }
  }

  // A completion of a clean context after its parse results were set.
  lemma ReportEffect(s: State, a: Address, p: Parse, again: bool, t: State)
    requires Live(s, a) && s.contexts[a].parsed == NoParse && p.message != NoText
    requires Follows(SetParse(s, a, p), a, p.ok, p.message, again, t)
    ensures Effect(s, s, a, p, again, t)
  {
    hide Complete;
    var r := SetParse(s, a, p);
    assert r.contexts[a].parsed == p && r.contexts[a].command == s.contexts[a].command;
    var u := Complete(r, a, p.ok, p.message);
    CompleteFirst(r, a, p.ok, p.message);
    CompleteCount(r, a, p.ok, p.message);
    if again && Live(u, a) {
      var x, m :| t == Complete(u, a, x, m);
      CompleteFirst(u, a, x, m);
    }
    assert Unblocks(r, a) <==> Unblocks(s, a);
  }

  // ---------- The datagram ----------

  lemma OnOkEffect(s: State, a: Address)
    requires Live(s, a) && s.contexts[a].parsed == NoParse
    ensures var cmd := s.contexts[a].command;
      var base := if Plainly(cmd, VOLUME) then Unstage(s) else s;
      var msg := if CompletesOnOk(cmd) then Acknowledged(cmd.tech) else Done;
      Effect(s, base, a, Parse(true, msg, NoData), CompletesOnOk(cmd), OnOk(s, a))
  {
    var cmd := s.contexts[a].command;
    var base := if Plainly(cmd, VOLUME) then Unstage(s) else s;
    var msg := if CompletesOnOk(cmd) then Acknowledged(cmd.tech) else Done;
    var u := Complete(base, a, true, msg);
    assert OnOk(s, a) == if CompletesOnOk(cmd) then Complete(u, a, true, Done) else u;
    PlainEffect(base, a, true, msg, CompletesOnOk(cmd), OnOk(s, a));
  }

  lemma OnDataEffect(s: State, a: Address, payload: seq<byte>)
    requires Live(s, a) && s.contexts[a].parsed == NoParse
    ensures var cmd := s.contexts[a].command;
      Effect(s, s, a, ParsePayload(cmd, payload, NoData), CompletesOnData(cmd), OnData(s, a, payload))
  {
    hide Complete;
    var cmd := s.contexts[a].command;
    var p := ParsePayload(cmd, payload, NoData);
    assert Live(SetParse(s, a, p), a) && SetParse(s, a, p).contexts[a].parsed == p;
    ReportEffect(s, a, p, CompletesOnData(cmd), OnData(s, a, payload));
  }

  /** A datagram changes nothing, or only adds an FU report, or completes the live command of the
      address in its first two bytes or of address 0. The completion carries an outcome that
      depends on that command and the bytes alone, and it is the only one exactly when it does
      not cascade. */
  ghost predicate Obeys(s: State, reaction: Reaction, t: State) {
    match reaction
    case Ignored => t == s
    case FuReply(a, command, ok) => t == ReportFu(s, a, command, ok)
    case Completes(a, outcome, again, unstages) =>
      Effect(s, if unstages then Unstage(s) else s, a, outcome, again, t)
  }

  lemma ReplyObeys(s: State, a: Address, reply: Reply)
    requires Live(s, a) && s.contexts[a].parsed == NoParse
    ensures Obeys(s, ReactToReply(s.contexts[a].command, a, reply), OnTUReply(s, a, reply))
  {
    match reply
    case ErrorReply(_, status) => PlainEffect(s, a, false, DeviceError(status), false, OnTUReply(s, a, reply));
    case OkReply(_, echo) => OnOkEffect(s, a);
    case DataReply(_, payload) => OnDataEffect(s, a, payload);
  }

  lemma BridgeObeys(s: State, bridge: BridgeReply)
    requires Live(s, BridgeAddress(bridge)) ==> s.contexts[BridgeAddress(bridge)].parsed == NoParse
    ensures Obeys(s, ReactToBridge(s, bridge), OnBridgeReply(s, bridge))
  {
    var b := BridgeAddress(bridge);
    if Live(s, b) {
      ReportEffect(s, b, BridgeReport(s.contexts[b].command, bridge), false, OnBridgeReply(s, bridge));
    }
  }

  ghost predicate CleanState(s: State) { forall a :: a in s.contexts ==> s.contexts[a].parsed == NoParse }

  /** The datagram theorem, for every clean state and every byte string. */
  lemma DatagramObeys(s: State, data: seq<byte>)
    requires CleanState(s)
    ensures Obeys(s, React(s, data), Receive(s, data))
    ensures React(s, data).Completes? ==> React(s, data).address in {0, Word(data[0], data[1])}
  {
    hide OnTUReply, OnBridgeReply, Complete, Effect, ParseTUResponse, Cascades;
    if |data| >= 2 {
      var a := Word(data[0], data[1]);
      var tu, bridge := ParseTUResponse(data), ParseBridgeResponse(data);
      if Live(s, a) && s.contexts[a].command.tech.IS_YOU? && bridge.Some? {
        ReportEffect(s, a, IsYouReport(bridge.value), false, Receive(s, data));
      } else if Live(s, a) && tu.Some? {
        ReplyObeys(s, a, tu.value);
      } else if Live(s, a) && bridge.Some? {
        PlainEffect(s, a, false, UnexpectedBridge, false, Receive(s, data));
      } else if bridge.Some? {
        BridgeObeys(s, bridge.value);
      }
    }
  }

  /** A delayed four-byte acknowledgement that echoes another command leaves the whole engine
      unchanged, for every live command but IS_YOU. */
  lemma StaleAckIgnored(s: State, data: seq<byte>)
    requires |data| == 4 && data[2] == 0
    requires Live(s, Word(data[0], data[1]))
    requires !s.contexts[Word(data[0], data[1])].command.tech.IS_YOU?
    requires data[3] != Code(s.contexts[Word(data[0], data[1])].command.tech)
    ensures Receive(s, data) == s
  {
  }

  /** And one that echoes the live command is taken as its acknowledgement. */
  lemma MatchingAckTaken(s: State, data: seq<byte>)
    requires |data| == 4 && data[2] == 0
    requires Live(s, Word(data[0], data[1]))
    requires !s.contexts[Word(data[0], data[1])].command.tech.IS_YOU?
    requires data[3] == Code(s.contexts[Word(data[0], data[1])].command.tech)
    ensures Receive(s, data) == OnOk(s, Word(data[0], data[1]))
  {
    hide OnOk, Complete, Word, Code;
  }

  // ---------- Numbers in replies ----------

  // The number of bytes in which the reply to a command carries a number, low byte first.
  function Width(tech: TechCommand): nat {
    match tech
    case VERS | CHECKSUM | DROP | FactoryNumber => 2
    case BER_T | BER_F => 4
    case _ => 0
  }

  function Scale(width: nat): (scale: nat)
    ensures scale > 0
  {
    if width == 0 then 1 else 0x100 * Scale(width - 1)
  }

  function LittleBytes(n: nat, width: nat): (bytes: seq<byte>)
    ensures |bytes| == width
  {
    if width == 0 then [] else [n % 0x100] + LittleBytes(n / 0x100, width - 1)
  }

  lemma {:induction false} LittleKept(n: nat, width: nat)
    requires n < Scale(width)
    ensures LittleEndian(LittleBytes(n, width)) == n
  {
    if width > 0 {
      LittleKept(n / 0x100, width - 1);
      assert LittleBytes(n, width)[1..] == LittleBytes(n / 0x100, width - 1);
    }
  }

  /** Every number a device can send arrives as that number, whatever follows it in the packet. */
  lemma NumberArrives(cmd: Command, n: nat, rest: seq<byte>, prior: Data)
    requires cmd.data.None? && Width(cmd.tech) > 0 && n < Scale(Width(cmd.tech))
    ensures ParsePayload(cmd, LittleBytes(n, Width(cmd.tech)) + rest, prior) == Parse(true, Parsed(cmd.tech), Number(n))
  {
    hide LittleEndian, LittleBytes, Scale;
    var width := Width(cmd.tech);
    LittleKept(n, width);
    assert (LittleBytes(n, width) + rest)[..width] == LittleBytes(n, width);
  }
}
