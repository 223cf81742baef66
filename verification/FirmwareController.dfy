/** The controller's fields and methods. The point where updateFirmware waits inside its nested
    event loop is the field `waiting`; each handler resumes it there. */
module FirmwareController {
  import opened Protocol
  import opened HexImage
  import opened FirmwareWire
  import opened FirmwareSession
  import C = Crc24

  class PPBController {
    var firmwareUpdateRunning: bool
    var scenarioRunning: bool
    var scenarioLoaded: bool
    var waiting: Option<Session>
    var log: seq<Entry>
    const volume: VolumeCommand

    ghost function Model(): State
      reads this, volume
    {
      State(firmwareUpdateRunning, scenarioRunning, scenarioLoaded, waiting, volume.Model(), log)
    }

    constructor ()
      ensures Model() == New() && fresh(volume)
    {
      firmwareUpdateRunning, scenarioRunning, scenarioLoaded, waiting, log := false, false, false, None, [];
      volume := new VolumeCommand();
    }

    // ---------- updateFirmware up to its first wait ----------

    method UpdateFirmware(selected: Address, lines: seq<string>, version: Option<real>, busy: bool)
      requires Inv(Model())
      modifies this
      ensures Model() == Start(old(Model()), selected, lines, version, busy)
    {
      hide Parsed, Volumes, Flatten, C.Checksum, CrcBytes, Inv, VolumeCommand.Model;
      if firmwareUpdateRunning || scenarioRunning || busy {
        return;
      }
      var code := VersionCode(version);
      if code.None? {
        return;
      }
      var blocks := ParseHexToDataBlocks(lines);
      if blocks == [] {
        return;
      }
      var payloads := BuildVolumePayloads(blocks);
      if payloads == [] || |payloads| > 0xFFFF {
        return;
      }
      firmwareUpdateRunning := true;
      var all := JoinBlocks(blocks, 0, |blocks|);
      assert blocks[0..|blocks|] == blocks;
      var crc := C.Crc24(all);
      waiting := Some(Session(Plan(lines, payloads, CrcBytes(crc), code.value, selected), Asking, 0, 0, 0, 0, |log|));
      log := log + [Cleared(EVERYONE), Command(IS_YOU, 0)];
    }

    // ---------- The handlers that end a wait ----------

    method Leave()
      modifies this
      ensures Model() == Exit(old(Model()))
    {
      firmwareUpdateRunning, waiting := false, None;
    }

    // executeGroupAndWait up to its wait; `id` is what executeGroupCommand returns.
    method ExecuteGroup(ses: Session, tech: TechCommand, id: nat)
      modifies this
      ensures Model() == IssueGroup(old(Model()), ses, tech, id)
    {
      if id == 0 {
        Leave();
        return;
      }
      waiting := Some(ses.(group := id));
      log := log + [Group(tech, ses.target, id)];
    }

    method OnCommandDataParsed(tech: TechCommand, address: Address, mask: Address, id: nat)
      requires Inv(Model())
      modifies this
      ensures Model() == Next(old(Model()), DataParsed(tech, address, mask, id))
    {
      hide Inv, Common, VolumeCommand.Model;
      if waiting.None? || !waiting.value.stage.Asking? || tech != IS_YOU || address != 0 {
        return;
      }
      var ses := waiting.value;
      log := log + [Answer(mask)];
      var target := Common(mask, ses.plan.selected);
      if mask == 0 || target == 0 {
        Leave();
        return;
      }
      ExecuteGroup(ses.(stage := Checking, answer := mask, target := target, vers := id), VERS, id);
    }

    method OnGroupCommandCompleted(group: nat, ok: bool, id: nat)
      requires Inv(Model())
      modifies this, volume
      ensures Model() == Next(old(Model()), GroupCompleted(group, ok, id))
    {
      hide Told, Request, VolumeCommand.Model;
      if waiting.None? || !(waiting.value.stage.Checking? || waiting.value.stage.Entering?) || group != waiting.value.group {
        return;
      }
      var ses := waiting.value;
      if !ok {
        log := log + [Cleared(ses.target)];
        Leave();
        return;
      }
      log := log + [GroupOk(ses.group)];
      if ses.stage.Checking? {
        ExecuteGroup(ses.(stage := Entering), PROGRAMM, id);
      } else {
        StageVolumeAndSend(ses, 0);
      }
    }

    // One turn of the VOLUME loop up to its wait.
    method StageVolumeAndSend(ses: Session, i: nat)
      requires Sound(ses.plan) && i < |ses.plan.volumes|
      modifies this, volume
      ensures Model() == SendVolume(old(Model()), ses, i)
    {
      hide Request, VolumeCommand.Model;
      var total := |ses.plan.volumes|;
      var marker: byte := if i == 0 then 1 else 2;
      var size: Address := if i == 0 then total else 0;
      var crc: seq<byte> := [0, 0, 0];
      if i == total - 1 {
        crc := ses.plan.crc;
      }
      volume.SetCurrentVolumeData(ses.plan.volumes[i], marker, size, crc);
      waiting := Some(ses.(stage := Streaming(i)));
      var packet := volume.BuildRequest(0);
      log := log + [Volume(packet)];
    }

    method StageVersionAndSend(ses: Session)
      requires Sound(ses.plan)
      modifies this, volume
      ensures Model() == SendVersion(old(Model()), ses)
    {
      hide Request, VolumeCommand.Model;
      volume.SetCurrentVolumeData(VersionBytes(ses.plan.version), 3, 0, ses.plan.crc);
      waiting := Some(ses.(stage := Closing));
      var packet := volume.BuildRequest(0);
      log := log + [Volume(packet)];
    }

    method OnCommandCompleted(ok: bool, tech: TechCommand)
      requires Inv(Model())
      modifies this, volume
      ensures Model() == Next(old(Model()), CommandCompleted(ok, tech))
    {
      hide Told, SendVolume, SendVersion, VolumeCommand.Model;
      if waiting.None? {
        return;
      }
      var ses := waiting.value;
      match ses.stage {
        case Streaming(i) =>
          if tech == VOLUME {
            VolumeCompleted(ses, i, ok);
          }
        case Closing => AwaitedCommand(ses, ok, tech, VOLUME, UPDATE, Updating);
        case Updating => AwaitedCommand(ses, ok, tech, UPDATE, CLEAN, Cleaning);
        case Cleaning =>
          if tech == CLEAN {
            CleanCompleted(ok);
          }
        case _ =>
      }
    }

    // The end of one turn of the VOLUME loop.
    method VolumeCompleted(ses: Session, i: nat, ok: bool)
      requires waiting == Some(ses) && ses.stage == Streaming(i) && Sound(ses.plan) && i < |ses.plan.volumes|
      modifies this, volume
      ensures Model() == CommandDone(old(Model()), ses, ok, VOLUME)
    {
      hide Request, StageVolume, StageVersion, VolumeCommand.Model;
      if !ok {
        ClearAndLeave();
        return;
      }
      log := log + [Done(VOLUME)];
      if i + 1 < |ses.plan.volumes| {
        StageVolumeAndSend(ses, i + 1);
      } else {
        StageVersionAndSend(ses);
      }
    }

    method CleanCompleted(ok: bool)
      modifies this
      ensures Model() == Exit(Note(old(Model()), if ok then [Done(CLEAN)] else [Cleared(0)]))
    {
      if ok {
        log := log + [Done(CLEAN)];
        Leave();
      } else {
        ClearAndLeave();
      }
    }

    method ClearAndLeave()
      modifies this
      ensures Model() == Exit(Note(old(Model()), [Cleared(0)]))
    {
      log := log + [Cleared(0)];
      Leave();
    }

    // The end of one executeAndWait and the start of the next.
    method AwaitedCommand(ses: Session, ok: bool, tech: TechCommand, awaited: TechCommand, next: TechCommand, stage: Stage)
      modifies this
      ensures Model() ==
        if tech != awaited then old(Model())
        else if !ok then Exit(Note(old(Model()), [Cleared(0)]))
        else Note(Move(old(Model()), ses.(stage := stage)), [Done(awaited), Command(next, 0)])
    {
      if tech != awaited {
        return;
      }
      if !ok {
        ClearAndLeave();
        return;
      }
      log := log + [Done(awaited), Command(next, 0)];
      waiting := Some(ses.(stage := stage));
    }

    method OnWaitExpired()
      requires Inv(Model())
      modifies this
      ensures Model() == Next(old(Model()), WaitExpired)
    {
      hide Inv, VolumeCommand.Model;
      if waiting.None? {
        return;
      }
      var ses := waiting.value;
      if ses.stage.Checking? || ses.stage.Entering? {
        log := log + [Cleared(ses.target)];
      } else if !ses.stage.Asking? {
        log := log + [Cleared(0)];
      }
      Leave();
    }

    // ---------- The other calls ----------

    method CommandBlockedByFirmwareUpdate() returns (blocked: bool)
      ensures blocked <==> Model().updating
    {
      return firmwareUpdateRunning;
    }

    method PerformOperation(op: Operation, busy: bool, id: nat)
      requires Inv(Model())
      modifies this
      ensures Model() == Next(old(Model()), Perform(op, busy, id))
    {
      hide Inv, Effect;
      var blocked := CommandBlockedByFirmwareUpdate();
      if blocked {
        return;
      }
      log := log + Effect(op, busy, id);
    }

    method OnLoadScenario(loads: bool)
      requires Inv(Model())
      modifies this
      ensures Model() == Next(old(Model()), LoadScenario(loads))
    {
      hide Inv, VolumeCommand.Model;
      if firmwareUpdateRunning {
        return;
      }
      scenarioLoaded := loads;
    }

    method OnRunScenario(queued: bool)
      requires Inv(Model())
      modifies this
      ensures Model() == Next(old(Model()), RunScenario(queued))
    {
      hide Inv, VolumeCommand.Model;
      if firmwareUpdateRunning || !scenarioLoaded || scenarioRunning {
        return;
      }
      scenarioRunning := true;
      if !queued {
        scenarioRunning := false;
      }
    }

    method OnScenarioFinished()
      requires Inv(Model())
      modifies this
      ensures Model() == Next(old(Model()), ScenarioFinished)
    {
      hide Inv, VolumeCommand.Model;
      scenarioRunning := false;
    }

    /** Any event at all: the object takes the step of the session machine, so what is proved of its
        runs holds of every history of the object. */
    method Handle(e: Event)
      requires Inv(Model())
      modifies this, volume
      ensures Model() == Next(old(Model()), e) && Inv(Model())
    {
      hide Inv, VolumeCommand.Model;
      InvKept(Model(), e);
      match e {
        case UpdateFirmware(selected, lines, version, busy) => UpdateFirmware(selected, lines, version, busy);
        case DataParsed(tech, address, mask, id) => OnCommandDataParsed(tech, address, mask, id);
        case GroupCompleted(group, ok, id) => OnGroupCommandCompleted(group, ok, id);
        case CommandCompleted(ok, tech) => OnCommandCompleted(ok, tech);
        case WaitExpired => OnWaitExpired();
        case Perform(op, busy, id) => PerformOperation(op, busy, id);
        case LoadScenario(loads) => OnLoadScenario(loads);
        case RunScenario(queued) => OnRunScenario(queued);
        case ScenarioFinished => OnScenarioFinished();
      }
    }
  }
}
