/** The controller around a firmware update: an exclusive session that walks through its stages,
    each after the success of the one before, while nested event loops let every other call in.
    The waiting point inside updateFirmware is the session's stage. */
module FirmwareSession {
  import opened Protocol
  import opened HexImage
  import opened FirmwareWire
  import opened Crc24

  // ---------- Preflight ----------

  datatype Plan = Plan(lines: seq<string>, volumes: seq<seq<byte>>, crc: seq<byte>, version: nat, selected: Address)

  predicate Sound(p: Plan) { 1 <= |p.volumes| <= 0xFFFF && |p.crc| == 3 && p.version < 0x1_0000_0000 }

  // The plan carries the image of an accepted file.
  predicate Carried(p: Plan) {
    && Parsed(p.lines) != [] && p.volumes == Volumes(Parsed(p.lines))
    && p.crc == CrcBytes(Checksum(Flatten(Parsed(p.lines))))
  }

  // qRound64 of a hundredfold version, None where the source refuses it (None also stands for a
  // version that is not finite).
  function VersionCode(version: Option<real>): Option<nat> {
    if version.None? || version.value < 0.0 then None
    else
      var code := (version.value * 100.0 + 0.5).Floor;
      if code > 0xFFFF_FFFF then None else Some(code)
  }

  function Preflight(lines: seq<string>, version: Option<real>, selected: Address): (plan: Option<Plan>)
    ensures plan.Some? ==> Sound(plan.value) && Carried(plan.value) && plan.value.lines == lines
    ensures plan.Some? ==> plan.value.selected == selected && VersionCode(version) == Some(plan.value.version)
  {
    var blocks := Parsed(lines);
    var volumes := Volumes(blocks);
    if VersionCode(version).None? || blocks == [] || volumes == [] || |volumes| > 0xFFFF then None
    else Some(Plan(lines, volumes, CrcBytes(Checksum(Flatten(blocks))), VersionCode(version).value, selected))
  }

  // ---------- State ----------

  /** What the controller asks of the communication layer, and the successes a session waits for. */
  datatype Entry =
    | Cleared(mask: Address)  // the queues of address 0 and of the mask's targets
    | Command(tech: TechCommand, address: Address)
    | Group(tech: TechCommand, mask: Address, id: nat)
    | Volume(packet: seq<byte>)
    | Fu(address: Address)
    | Connect(address: Address)
    | Disconnected
    | Bridge
    | Replaced
    | Answer(mask: Address)
    | GroupOk(id: nat)
    | Done(tech: TechCommand)

  datatype Stage = Asking | Checking | Entering | Streaming(i: nat) | Closing | Updating | Cleaning

  /** One update: its plan, where it waits, the mask that answered IS_YOU, the devices addressed,
      the ids of its groups, and where its entries start in the log. */
  datatype Session = Session(plan: Plan, stage: Stage, answer: Address, target: Address, vers: nat, group: nat, mark: nat)

  datatype State = State(
    updating: bool, scenario: bool, loaded: bool,
    session: Option<Session>, staged: Staged, log: seq<Entry>)

  function New(): State { State(false, false, false, None, Empty, []) }

  function Note(s: State, entries: seq<Entry>): State { s.(log := s.log + entries) }

  function Move(s: State, session: Session): State { s.(session := Some(session)) }

  // The guard object runs on every way out.
  function Exit(s: State): State { s.(updating := false, session := None) }

  const EVERYONE: Address := 0xFFFF

  // ---------- Bitwise and of two masks ----------

  function Common(x: nat, y: nat): (r: nat)
    ensures r <= x
  {
    if x == 0 || y == 0 then 0
    else 2 * Common(x / 2, y / 2) + (if x % 2 == 1 && y % 2 == 1 then 1 else 0)
  }

  lemma {:induction false} CommonFrom(x: nat, y: nat, unit: nat)
    requires 0 < unit
    ensures forall a :: a in TargetsFrom(Common(x, y), unit) <==> a in TargetsFrom(x, unit) && a in TargetsFrom(y, unit)
    decreases 0x1_0000 - unit
  {
    if unit <= 0x8000 {
      CommonFrom(x / 2, y / 2, unit * 2);
      TargetsFromAscending(x / 2, unit * 2);
      TargetsFromAscending(y / 2, unit * 2);
      var c := Common(x, y);
      assert c / 2 == Common(x / 2, y / 2) && (c % 2 == 1 <==> x % 2 == 1 && y % 2 == 1) by {
        if x == 0 || y == 0 {
          assert Common(x / 2, y / 2) == 0;
        }
      }
    }
  }

  /** A session's groups go to exactly the devices that are both selected and active. */
  lemma CommonTargets(x: Address, y: Address)
    ensures TargetSet(Common(x, y)) == TargetSet(x) * TargetSet(y)
  {
    CommonFrom(x, y, 1);
  }

  // ---------- updateFirmware ----------

  function Start(s: State, selected: Address, lines: seq<string>, version: Option<real>, busy: bool): State {
    if s.updating || s.scenario || busy then s
    else
      match Preflight(lines, version, selected)
      case None => s
      case Some(plan) =>
        Note(Move(s.(updating := true), Session(plan, Asking, 0, 0, 0, 0, |s.log|)), [Cleared(EVERYONE), Command(IS_YOU, 0)])
  }

  // executeGroupAndWait; the engine answers 0 when it does not accept the group.
  function IssueGroup(s: State, ses: Session, tech: TechCommand, id: nat): State {
    if id == 0 then Exit(s)
    else Note(Move(s, ses.(group := id)), [Group(tech, ses.target, id)])
  }

  function Identified(s: State, ses: Session, answer: Address, id: nat): State {
    var target := Common(answer, ses.plan.selected);
    var t := Note(s, [Answer(answer)]);
    if answer == 0 || target == 0 then Exit(t)
    else IssueGroup(t, ses.(stage := Checking, answer := answer, target := target, vers := id), VERS, id)
  }

  function SendVolume(s: State, ses: Session, i: nat): State
    requires Sound(ses.plan) && i < |ses.plan.volumes|
  {
    var staged := StageVolume(ses.plan.volumes, i, ses.plan.crc);
    Note(Move(s, ses.(stage := Streaming(i))).(staged := staged), [Volume(Request(staged, 0))])
  }

  function SendVersion(s: State, ses: Session): State
    requires Sound(ses.plan)
  {
    var staged := StageVersion(ses.plan.version, ses.plan.crc);
    Note(Move(s, ses.(stage := Closing)).(staged := staged), [Volume(Request(staged, 0))])
  }

  function Abort(s: State, ses: Session): State {
    if ses.stage.Asking? then Exit(s)
    else if ses.stage.Checking? || ses.stage.Entering? then Exit(Note(s, [Cleared(ses.target)]))
    else Exit(Note(s, [Cleared(0)]))
  }

  function GroupDone(s: State, ses: Session, ok: bool, id: nat): State
    requires ses.stage.Checking? || ses.stage.Entering?
    requires Sound(ses.plan)
  {
    if !ok then Abort(s, ses)
    else
      var t := Note(s, [GroupOk(ses.group)]);
      if ses.stage.Checking? then IssueGroup(t, ses.(stage := Entering), PROGRAMM, id) else SendVolume(t, ses, 0)
  }

  function CommandDone(s: State, ses: Session, ok: bool, tech: TechCommand): State
    requires Sound(ses.plan)
  {
    match ses.stage
    case Streaming(i) =>
      if !tech.VOLUME? then s
      else if !ok then Abort(s, ses)
      else
        var t := Note(s, [Done(VOLUME)]);
        if i + 1 < |ses.plan.volumes| then SendVolume(t, ses, i + 1) else SendVersion(t, ses)
    case Closing =>
      if !tech.VOLUME? then s
      else if !ok then Abort(s, ses)
      else Note(Move(s, ses.(stage := Updating)), [Done(VOLUME), Command(UPDATE, 0)])
    case Updating =>
      if !tech.UPDATE? then s
      else if !ok then Abort(s, ses)
      else Note(Move(s, ses.(stage := Cleaning)), [Done(UPDATE), Command(CLEAN, 0)])
    case Cleaning =>
      if !tech.CLEAN? then s
      else if !ok then Abort(s, ses)
      else Exit(Note(s, [Done(CLEAN)]))
    case _ => s
  }

  // ---------- The other calls ----------

  datatype Operation =
    | ConnectToPPB(address: Address) | Disconnect | SetBridgeAddress | SetCommunication | StartAutoPoll
    | RequestStatus(address: Address) | SendTC(address: Address) | ResetPPB(address: Address)
    | SetFUReceive(address: Address) | SetFUTransmit(address: Address) | SetFUReceiveTransmit(address: Address)
    | StartPRBS_M2S(address: Address) | StartPRBS_S2M(address: Address)
    | RequestVersion(address: Address) | RequestChecksum(address: Address)
    | SendProgram(address: Address) | SendClean(address: Address)
    | RequestDroppedPackets(address: Address) | RequestBER_T(address: Address) | RequestBER_F(address: Address)
    | RequestFabricNumber(address: Address) | ExecuteCommand(tech: TechCommand, address: Address)

  // What an operation asks of the communication layer, which may be busy and names a group `id`.
  function Effect(op: Operation, busy: bool, id: nat): seq<Entry> {
    match op
    case ConnectToPPB(a) => [Connect(a)]
    case Disconnect => [Disconnected]
    case SetBridgeAddress => [Bridge]
    case SetCommunication => [Replaced]
    case StartAutoPoll => []
    case RequestStatus(a) => if busy then [] else if |Targets(a)| <= 1 then [Command(TS, a)] else [Group(TS, a, id)]
    case SendTC(a) => if |Targets(a)| == 1 then [Command(TC, a)] else []
    case ResetPPB(a) => [Command(TC, a)]
    case SetFUReceive(a) => if busy then [] else [Fu(a)]
    case SetFUTransmit(a) => if busy then [] else [Fu(a)]
    case SetFUReceiveTransmit(a) => if busy then [] else [Fu(a)]
    case StartPRBS_M2S(a) => [Command(PRBS_M2S, a)]
    case StartPRBS_S2M(a) => [Command(PRBS_S2M, a)]
    case RequestVersion(a) => [Command(VERS, a)]
    case RequestChecksum(a) => [Command(CHECKSUM, a)]
    case SendProgram(a) => [Command(PROGRAMM, a)]
    case SendClean(a) => [Command(CLEAN, a)]
    case RequestDroppedPackets(a) => [Command(DROP, a)]
    case RequestBER_T(a) => [Command(BER_T, a)]
    case RequestBER_F(a) => [Command(BER_F, a)]
    case RequestFabricNumber(a) => [Command(FactoryNumber, a)]
    case ExecuteCommand(tech, a) => [Command(tech, a)]
  }

  /** What can happen, in any order, also while updateFirmware waits. */
  datatype Event =
    | UpdateFirmware(selected: Address, lines: seq<string>, version: Option<real>, busy: bool)
    | DataParsed(tech: TechCommand, address: Address, mask: Address, id: nat)
    | GroupCompleted(group: nat, ok: bool, id: nat)
    | CommandCompleted(ok: bool, tech: TechCommand)
    | WaitExpired
    | Perform(op: Operation, busy: bool, id: nat)
    | LoadScenario(loads: bool)
    | RunScenario(queued: bool)
    | ScenarioFinished

  function Next(s: State, e: Event): State
    requires s.session.Some? ==> Sound(s.session.value.plan)
  {
    match e
    case UpdateFirmware(selected, lines, version, busy) => Start(s, selected, lines, version, busy)
    case DataParsed(tech, a, mask, id) =>
      if s.session.Some? && s.session.value.stage.Asking? && tech.IS_YOU? && a == 0
      then Identified(s, s.session.value, mask, id) else s
    case GroupCompleted(group, ok, id) =>
      if s.session.Some? && (s.session.value.stage.Checking? || s.session.value.stage.Entering?) && group == s.session.value.group
      then GroupDone(s, s.session.value, ok, id) else s
    case CommandCompleted(ok, tech) => if s.session.Some? then CommandDone(s, s.session.value, ok, tech) else s
    case WaitExpired => if s.session.Some? then Abort(s, s.session.value) else s
    case Perform(op, busy, id) => if s.updating then s else Note(s, Effect(op, busy, id))
    case LoadScenario(loads) => if s.updating then s else s.(loaded := loads)
    case RunScenario(queued) => if s.updating || !s.loaded || s.scenario then s else s.(scenario := queued)
    case ScenarioFinished => s.(scenario := false)
  }

  // ---------- What a session has done when it waits at a stage ----------

  function Opening(): seq<Entry> { [Cleared(EVERYONE), Command(IS_YOU, 0)] }

  function Checked(ses: Session): seq<Entry> {
    Opening() + [Answer(ses.answer), Group(VERS, ses.target, ses.vers), GroupOk(ses.vers)]
  }

  // The first i data volumes, each followed by its success.
  function Sent(plan: Plan, i: nat): seq<Entry>
    requires Sound(plan) && i <= |plan.volumes|
  {
    if i == 0 then [] else Sent(plan, i - 1) + [Volume(VolumePacket(plan.volumes, i - 1, plan.crc)), Done(VOLUME)]
  }

  function Delivered(ses: Session): seq<Entry>
    requires Sound(ses.plan)
  {
    Checked(ses) + [Group(PROGRAMM, ses.target, ses.group), GroupOk(ses.group)] + Sent(ses.plan, |ses.plan.volumes|)
      + [Volume(FinalPacket(ses.plan.version, ses.plan.crc)), Done(VOLUME)]
  }

  function Told(ses: Session): seq<Entry>
    requires Sound(ses.plan) && (ses.stage.Streaming? ==> ses.stage.i < |ses.plan.volumes|)
  {
    match ses.stage
    case Asking => Opening()
    case Checking => Opening() + [Answer(ses.answer), Group(VERS, ses.target, ses.vers)]
    case Entering => Checked(ses) + [Group(PROGRAMM, ses.target, ses.group)]
    case Streaming(i) =>
      Checked(ses) + [Group(PROGRAMM, ses.target, ses.group), GroupOk(ses.group)] + Sent(ses.plan, i)
        + [Volume(VolumePacket(ses.plan.volumes, i, ses.plan.crc))]
    case Closing =>
      Checked(ses) + [Group(PROGRAMM, ses.target, ses.group), GroupOk(ses.group)] + Sent(ses.plan, |ses.plan.volumes|)
        + [Volume(FinalPacket(ses.plan.version, ses.plan.crc))]
    case Updating => Delivered(ses) + [Command(UPDATE, 0)]
    case Cleaning => Delivered(ses) + [Command(UPDATE, 0), Done(UPDATE), Command(CLEAN, 0)]
  }

  predicate InPlace(ses: Session) {
    && Sound(ses.plan)
    && (ses.stage.Streaming? ==> ses.stage.i < |ses.plan.volumes|)
    && (!ses.stage.Asking? ==> ses.target == Common(ses.answer, ses.plan.selected) && ses.target != 0 && ses.vers != 0 && ses.group != 0)
    && (ses.stage.Checking? ==> ses.group == ses.vers)
  }

  /** Between steps: the flag is up exactly while a session runs, never together with the
      scenario's, and since the session began the log holds its own entries and nothing else. */
  predicate Inv(s: State) {
    && (s.updating <==> s.session.Some?)
    && !(s.updating && s.scenario)
    && (s.session.Some? ==>
      && InPlace(s.session.value) && s.session.value.mark <= |s.log|
      && s.log[s.session.value.mark..] == Told(s.session.value))
  }

  // ---------- Every step keeps it ----------

  lemma Appended(s: State, ses: Session, entries: seq<Entry>)
    requires ses.mark <= |s.log|
    ensures Note(s, entries).log[ses.mark..] == s.log[ses.mark..] + entries
  {
  }

  // A waiting session that moves on, recording what it did.
  lemma Advances(s: State, ses: Session, next: Session, entries: seq<Entry>, t: State)
    requires Inv(s) && s.session == Some(ses) && next.mark == ses.mark && InPlace(next)
    requires Told(next) == Told(ses) + entries
    requires t.session == Some(next) && t.log == s.log + entries && t.updating && t.scenario == s.scenario
    ensures Inv(t)
  {
    hide Told, InPlace;
    Appended(s, ses, entries);
  }

  lemma StartKept(s: State, selected: Address, lines: seq<string>, version: Option<real>, busy: bool)
    requires Inv(s)
    ensures Inv(Start(s, selected, lines, version, busy))
  {
    hide Preflight, Carried;
    var t := Start(s, selected, lines, version, busy);
    if t != s {
      assert t.log[|s.log|..] == Opening();
    }
  }

  lemma IdentifiedKept(s: State, ses: Session, answer: Address, id: nat)
    requires Inv(s) && s.session == Some(ses) && ses.stage.Asking?
    ensures Inv(Identified(s, ses, answer, id))
  {
    hide Common;
    var target := Common(answer, ses.plan.selected);
    if target != 0 && answer != 0 && id != 0 {
      var next := ses.(stage := Checking, answer := answer, target := target, vers := id, group := id);
      var t := Identified(s, ses, answer, id);
      assert t.log == s.log + [Answer(answer), Group(VERS, target, id)];
      Advances(s, ses, next, [Answer(answer), Group(VERS, target, id)], t);
    }
  }

  lemma CheckedKept(s: State, ses: Session, id: nat)
    requires Inv(s) && s.session == Some(ses) && ses.stage.Checking? && id != 0
    ensures Inv(GroupDone(s, ses, true, id))
  {
    hide Common;
    var next := ses.(stage := Entering, group := id);
    var entries := [GroupOk(ses.group), Group(PROGRAMM, ses.target, id)];
    var t := GroupDone(s, ses, true, id);
    assert t.log == s.log + entries;
    assert Told(next) == Told(ses) + entries;
    Advances(s, ses, next, entries, t);
  }

  lemma EnteredKept(s: State, ses: Session, id: nat)
    requires Inv(s) && s.session == Some(ses) && ses.stage.Entering?
    ensures Inv(GroupDone(s, ses, true, id))
  {
    hide Common, Request;
    var next := ses.(stage := Streaming(0));
    var entries := [GroupOk(ses.group), Volume(VolumePacket(ses.plan.volumes, 0, ses.plan.crc))];
    var t := GroupDone(s, ses, true, id);
    assert t.log == s.log + entries;
    assert Sent(ses.plan, 0) == [];
    assert Told(next) == Told(ses) + entries;
    Advances(s, ses, next, entries, t);
  }

  lemma VolumeKept(s: State, ses: Session)
    requires Inv(s) && s.session == Some(ses) && ses.stage.Streaming?
    ensures Inv(CommandDone(s, ses, true, VOLUME))
  {
    hide Common, Request;
    var i := ses.stage.i;
    var t := CommandDone(s, ses, true, VOLUME);
    var next, packet := ses.(stage := Closing), FinalPacket(ses.plan.version, ses.plan.crc);
    if i + 1 < |ses.plan.volumes| {
      next, packet := ses.(stage := Streaming(i + 1)), VolumePacket(ses.plan.volumes, i + 1, ses.plan.crc);
    }
    var entries := [Done(VOLUME), Volume(packet)];
    assert t.log == s.log + entries;
    assert Checked(next) == Checked(ses);
    assert Sent(ses.plan, i + 1) == Sent(ses.plan, i) + [Volume(VolumePacket(ses.plan.volumes, i, ses.plan.crc)), Done(VOLUME)];
    Regrouped(Checked(ses), [Group(PROGRAMM, ses.target, ses.group), GroupOk(ses.group)], Sent(ses.plan, i),
      Volume(VolumePacket(ses.plan.volumes, i, ses.plan.crc)), Done(VOLUME), Volume(packet));
    Nested(Checked(ses) + [Group(PROGRAMM, ses.target, ses.group), GroupOk(ses.group)], Sent(ses.plan, i),
      [Volume(VolumePacket(ses.plan.volumes, i, ses.plan.crc)), Done(VOLUME)]);
    assert Told(next) == Told(ses) + entries;
    Advances(s, ses, next, entries, t);
  }

  lemma Nested<T>(x: seq<T>, y: seq<T>, z: seq<T>)
    ensures x + (y + z) == x + y + z
  {
  }

  lemma Regrouped<T>(x: seq<T>, y: seq<T>, z: seq<T>, a: T, b: T, c: T)
    ensures x + y + z + [a, b] + [c] == x + y + z + [a] + [b, c]
    ensures x + [a] + [b, c] == x + [a, b, c]
  {
  }

  lemma ClosingKept(s: State, ses: Session)
    requires Inv(s) && s.session == Some(ses) && ses.stage.Closing?
    ensures Inv(CommandDone(s, ses, true, VOLUME))
  {
    hide Common, Request, Sent;
    var next, entries := ses.(stage := Updating), [Done(VOLUME), Command(UPDATE, 0)];
    assert Checked(next) == Checked(ses);
    Regrouped(Checked(ses), [Group(PROGRAMM, ses.target, ses.group), GroupOk(ses.group)], Sent(ses.plan, |ses.plan.volumes|),
      Volume(FinalPacket(ses.plan.version, ses.plan.crc)), Done(VOLUME), Command(UPDATE, 0));
    assert Told(next) == Told(ses) + entries;
    Advances(s, ses, next, entries, CommandDone(s, ses, true, VOLUME));
  }

  lemma UpdatingKept(s: State, ses: Session)
    requires Inv(s) && s.session == Some(ses) && ses.stage.Updating?
    ensures Inv(CommandDone(s, ses, true, UPDATE))
  {
    hide Common, Sent, Request;
    var next, entries := ses.(stage := Cleaning), [Done(UPDATE), Command(CLEAN, 0)];
    assert Delivered(ses) == Delivered(next);
    Regrouped(Delivered(ses), [], [], Command(UPDATE, 0), Done(UPDATE), Command(CLEAN, 0));
    assert Told(next) == Told(ses) + entries;
    Advances(s, ses, next, entries, CommandDone(s, ses, true, UPDATE));
  }

  lemma CommandKept(s: State, ses: Session, ok: bool, tech: TechCommand)
    requires Inv(s) && s.session == Some(ses)
    ensures Inv(CommandDone(s, ses, ok, tech))
  {
    hide Told, InPlace;
    if !ok {
    } else if ses.stage.Streaming? && tech.VOLUME? {
      VolumeKept(s, ses);
    } else if ses.stage.Closing? && tech.VOLUME? {
      ClosingKept(s, ses);
    } else if ses.stage.Updating? && tech.UPDATE? {
      UpdatingKept(s, ses);
    }
  }

  lemma GroupKept(s: State, ses: Session, ok: bool, id: nat)
    requires Inv(s) && s.session == Some(ses) && (ses.stage.Checking? || ses.stage.Entering?)
    ensures Inv(GroupDone(s, ses, ok, id))
  {
    hide Told, InPlace;
    if ok && ses.stage.Entering? {
      EnteredKept(s, ses, id);
    } else if ok && id != 0 {
      CheckedKept(s, ses, id);
    }
  }

  lemma InvKept(s: State, e: Event)
    requires Inv(s)
    ensures Inv(Next(s, e))
  {
    hide Told, InPlace, Effect, Start, Identified, GroupDone, CommandDone;
    match e
    case UpdateFirmware(selected, lines, version, busy) => StartKept(s, selected, lines, version, busy);
    case DataParsed(tech, a, mask, id) =>
      if s.session.Some? && s.session.value.stage.Asking? && tech.IS_YOU? && a == 0 {
        IdentifiedKept(s, s.session.value, mask, id);
      }
    case GroupCompleted(group, ok, id) =>
      if s.session.Some? && (s.session.value.stage.Checking? || s.session.value.stage.Entering?) && group == s.session.value.group {
        GroupKept(s, s.session.value, ok, id);
      }
    case CommandCompleted(ok, tech) =>
      if s.session.Some? {
        CommandKept(s, s.session.value, ok, tech);
      }
    case _ =>
  }

  // ---------- Runs ----------

  ghost function Final(run: seq<Event>): (s: State)
    ensures Inv(s)
  {
    if run == [] then New()
    else
      InvKept(Final(run[..|run| - 1]), run[|run| - 1]);
      Next(Final(run[..|run| - 1]), run[|run| - 1])
  }

  // A plan is made by the preflight and never changes.
  lemma PlanKept(s: State, e: Event)
    requires Inv(s)
    ensures var t := Next(s, e);
      t.session.Some? ==>
        if s.session.Some? then t.session.value.plan == s.session.value.plan
        else e.UpdateFirmware? && Preflight(e.lines, e.version, e.selected) == Some(t.session.value.plan)
  {
    hide Told, Effect, Preflight, Common, Request;
  }

  /** The plan of every session carries the image of the file it was started with. */
  lemma {:induction false} PlanCarries(run: seq<Event>)
    ensures Final(run).session.Some? ==> Carried(Final(run).session.value.plan)
  {
    hide Inv, Carried, Next;
    if run != [] {
      var front := run[..|run| - 1];
      PlanKept(Final(front), run[|run| - 1]);
      PlanCarries(front);
    }
  }
}
