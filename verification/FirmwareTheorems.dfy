/** What holds of every firmware session, whatever calls and replies its event loops let in. */
module FirmwareTheorems {
  import opened Protocol
  import opened HexImage
  import opened FirmwareWire
  import opened Crc24
  import opened FirmwareSession

  // The VOLUME packets among some entries, in order.
  function PacketsOf(entries: seq<Entry>): seq<seq<byte>> {
    if entries == [] then []
    else
      var front, last := PacketsOf(entries[..|entries| - 1]), entries[|entries| - 1];
      if last.Volume? then front + [last.packet] else front
  }

  lemma {:induction false} PacketsConcat(xs: seq<Entry>, ys: seq<Entry>)
    ensures PacketsOf(xs + ys) == PacketsOf(xs) + PacketsOf(ys)
    decreases |ys|
  {
    if ys == [] {
      assert xs + ys == xs;
    } else {
      assert (xs + ys)[..|xs + ys| - 1] == xs + ys[..|ys| - 1];
      PacketsConcat(xs, ys[..|ys| - 1]);
    }
  }

  lemma {:induction false} NoPackets(entries: seq<Entry>)
    requires forall i :: 0 <= i < |entries| ==> !entries[i].Volume?
    ensures PacketsOf(entries) == []
  {
    if entries != [] {
      NoPackets(entries[..|entries| - 1]);
    }
  }

  lemma OnePacket(packet: seq<byte>)
    ensures PacketsOf([Volume(packet), Done(VOLUME)]) == [packet]
  {
    var both := [Volume(packet), Done(VOLUME)];
    assert both[..|both| - 1] == [Volume(packet)];
    assert PacketsOf([Volume(packet)]) == [packet] by {
      assert [Volume(packet)][..0] == [];
    }
  }

  lemma {:induction false} SentPackets(plan: Plan, i: nat)
    requires Sound(plan) && i <= |plan.volumes|
    ensures PacketsOf(Sent(plan, i)) == seq(i, k requires 0 <= k < i => VolumePacket(plan.volumes, k, plan.crc))
  {
    hide VolumePacket;
    if i > 0 {
      SentPackets(plan, i - 1);
      var packet := VolumePacket(plan.volumes, i - 1, plan.crc);
      PacketsConcat(Sent(plan, i - 1), [Volume(packet), Done(VOLUME)]);
      OnePacket(packet);
    }
  }

  lemma DeliveredPackets(ses: Session)
    requires Sound(ses.plan)
    ensures PacketsOf(Delivered(ses)) == Stream(ses.plan.volumes, ses.plan.crc, ses.plan.version)
  {
    hide VolumePacket, FinalPacket, Sent, PacketsOf;
    var groups := [Group(PROGRAMM, ses.target, ses.group), GroupOk(ses.group)];
    var n, packet := |ses.plan.volumes|, FinalPacket(ses.plan.version, ses.plan.crc);
    NoPackets(Checked(ses) + groups);
    SentPackets(ses.plan, n);
    PacketsConcat(Checked(ses) + groups, Sent(ses.plan, n));
    PacketsConcat(Checked(ses) + groups + Sent(ses.plan, n), [Volume(packet), Done(VOLUME)]);
    OnePacket(packet);
  }

  // ---------- End to end ----------

  /** What the receiver has got from the session's packets: the data bytes of the file in file order
      and the version, in volumes of 1 to 1024 bytes. */
  predicate Landed(s: State) {
    && s.session.Some? && s.session.value.mark <= |s.log|
    && var plan := s.session.value.plan;
    && Acceptable(plan.lines) && VolumeSized(plan.volumes)
    && Receive(PacketsOf(s.log[s.session.value.mark..])) == Some(Upload(Content(Visible(plan.lines)), plan.version))
  }

  lemma PlanDelivers(plan: Plan)
    requires Sound(plan) && Carried(plan)
    ensures Acceptable(plan.lines) && VolumeSized(plan.volumes)
    ensures Receive(Stream(plan.volumes, plan.crc, plan.version)) == Some(Upload(Content(Visible(plan.lines)), plan.version))
  {
    hide Receive, Stream, Acceptable, Checksum, CrcBytes;
    ParsedKeepsBytes(plan.lines);
    VolumesKeepBytes(Parsed(plan.lines));
    StreamDelivers(plan.volumes, plan.version);
  }

  lemma ToldPackets(ses: Session, rest: seq<Entry>)
    requires Sound(ses.plan) && forall i :: 0 <= i < |rest| ==> !rest[i].Volume?
    ensures PacketsOf(Delivered(ses) + rest) == Stream(ses.plan.volumes, ses.plan.crc, ses.plan.version)
  {
    hide PacketsOf, Delivered, Stream;
    DeliveredPackets(ses);
    PacketsConcat(Delivered(ses), rest);
    NoPackets(rest);
  }

  lemma ToldDelivers(ses: Session)
    requires Sound(ses.plan) && (ses.stage.Updating? || ses.stage.Cleaning?)
    ensures PacketsOf(Told(ses)) == Stream(ses.plan.volumes, ses.plan.crc, ses.plan.version)
  {
    hide PacketsOf, Delivered, Stream;
    if ses.stage.Updating? {
      ToldPackets(ses, [Command(UPDATE, 0)]);
    } else {
      ToldPackets(ses, [Command(UPDATE, 0), Done(UPDATE), Command(CLEAN, 0)]);
    }
  }

  /** In every run, by the time a session waits for UPDATE or CLEAN its packets have carried the
      whole image. */
  lemma UpdateDelivers(run: seq<Event>)
    requires var s := Final(run); s.session.Some? && (s.session.value.stage.Updating? || s.session.value.stage.Cleaning?)
    ensures Landed(Final(run))
  {
    hide Final, Told, Receive, Carried, Stream, PacketsOf;
    var s := Final(run);
    ToldDelivers(s.session.value);
    PlanCarries(run);
    PlanDelivers(s.session.value.plan);
  }

  predicate Issues(s: State, t: State, tech: TechCommand) {
    s.log <= t.log && exists i :: |s.log| <= i < |t.log| && t.log[i].Command? && t.log[i].tech == tech
  }

  /** While a session runs, the only step that sends UPDATE is the success of the final VOLUME, and
      then the whole image has been carried. */
  lemma UpdateNeedsDelivery(run: seq<Event>, e: Event)
    requires Final(run).updating && Issues(Final(run), Final(run + [e]), UPDATE)
    ensures e == CommandCompleted(true, VOLUME) && Final(run).session.value.stage.Closing?
    ensures Landed(Final(run + [e]))
  {
    Extended(run, e);
    OnlyClosingUpdates(Final(run), e);
    UpdateDelivers(run + [e]);
  }

  lemma Extended(run: seq<Event>, e: Event)
    ensures Final(run + [e]) == Next(Final(run), e)
  {
    assert (run + [e])[..|run|] == run;
  }

  lemma OnlyClosingCompletes(s: State, ses: Session, ok: bool, tech: TechCommand)
    requires s.session == Some(ses) && InPlace(ses) && Issues(s, CommandDone(s, ses, ok, tech), UPDATE)
    ensures ok && tech == VOLUME && ses.stage.Closing?
    ensures CommandDone(s, ses, ok, tech).session == Some(ses.(stage := Updating))
  {
    hide Told, Common, Request;
  }

  lemma OnlyClosingUpdates(s: State, e: Event)
    requires Inv(s) && s.updating && Issues(s, Next(s, e), UPDATE)
    ensures e == CommandCompleted(true, VOLUME) && s.session.value.stage.Closing?
    ensures Next(s, e).session.Some? && Next(s, e).session.value.stage.Updating?
  {
    hide Told, InPlace, Effect, Common, Request, CommandDone;
    if e.CommandCompleted? {
      OnlyClosingCompletes(s, s.session.value, e.ok, e.tech);
    }
  }

  // ---------- Exclusivity ----------

  predicate FromOutside(e: Event) { e.UpdateFirmware? || e.Perform? || e.LoadScenario? || e.RunScenario? }

  /** While a session runs no other call does anything, and no scenario runs. Since the session began
      the log holds its own entries only, in the order of its stages. */
  lemma SessionIsExclusive(run: seq<Event>, e: Event)
    requires Final(run).updating && FromOutside(e)
    ensures Final(run + [e]) == Final(run) && !Final(run).scenario
    ensures var ses := Final(run).session.value; Final(run).log[ses.mark..] == Told(ses)
  {
    hide Final, Told, InPlace, Effect;
    Extended(run, e);
  }

  /** The update and the scenario flag are never up together, and the update flag is up exactly
      while a session waits: every way out lowers it. */
  lemma FlagsAgree(run: seq<Event>)
    ensures var s := Final(run); !(s.updating && s.scenario) && (s.updating <==> s.session.Some?)
  {
    hide Final;
  }

  /** The groups of a session address exactly the devices that are selected and answered IS_YOU. */
  lemma GroupsReachSelected(run: seq<Event>)
    requires var s := Final(run); s.session.Some? && !s.session.value.stage.Asking?
    ensures var ses := Final(run).session.value;
      TargetSet(ses.target) == TargetSet(ses.answer) * TargetSet(ses.plan.selected) && TargetSet(ses.target) != {}
  {
    hide Final, Told, Common, TargetSet;
    var ses := Final(run).session.value;
    CommonTargets(ses.answer, ses.plan.selected);
    NonEmpty(ses.target);
  }

  lemma NonEmpty(mask: Address)
    requires mask != 0
    ensures TargetSet(mask) != {}
  {
    TargetsSound(mask);
    assert Targets(mask)[0] in TargetSet(mask);
  }

  // ---------- Every session ends ----------

  function Remaining(ses: Session): int {
    match ses.stage
    case Asking => |ses.plan.volumes| + 6
    case Checking => |ses.plan.volumes| + 5
    case Entering => |ses.plan.volumes| + 4
    case Streaming(i) => |ses.plan.volumes| + 3 - i
    case Closing => 3
    case Updating => 2
    case Cleaning => 1
  }

  // The session ended, stayed where it was, or came nearer to its end.
  predicate Nearer(s: State, t: State) {
    && s.session.Some?
    && (t.session.Some? ==>
      || (t.session == s.session && t.log == s.log)
      || 0 < Remaining(t.session.value) < Remaining(s.session.value))
  }

  /** The timer of each wait ends the session, and every other event ends it, leaves it where it is,
      or brings it nearer to its end. */
  lemma SessionsEnd(run: seq<Event>, e: Event)
    requires Final(run).updating
    ensures !Final(run + [WaitExpired]).updating
    ensures Nearer(Final(run), Final(run + [e]))
  {
    hide Final, Told;
    Extended(run, e);
    Extended(run, WaitExpired);
    StepNearer(Final(run), e);
    Ended(Final(run));
  }

  lemma Ended(s: State)
    requires Inv(s) && s.updating
    ensures !Next(s, WaitExpired).updating
  {
    hide Told, InPlace;
  }

  lemma CommandNearer(s: State, ses: Session, ok: bool, tech: TechCommand)
    requires s.session == Some(ses) && InPlace(ses)
    ensures Nearer(s, CommandDone(s, ses, ok, tech))
  {
    hide Told, Request, Common;
  }

  lemma GroupNearer(s: State, ses: Session, ok: bool, id: nat)
    requires s.session == Some(ses) && InPlace(ses) && (ses.stage.Checking? || ses.stage.Entering?)
    ensures Nearer(s, GroupDone(s, ses, ok, id))
  {
    hide Told, Request, Common;
  }

  lemma StepNearer(s: State, e: Event)
    requires Inv(s) && s.updating
    ensures Nearer(s, Next(s, e))
  {
    hide Told, InPlace, Effect, Common, CommandDone, GroupDone;
    var ses := s.session.value;
    match e
    case GroupCompleted(group, ok, id) =>
      if ses.stage.Checking? || ses.stage.Entering? {
        GroupNearer(s, ses, ok, id);
      }
    case CommandCompleted(ok, tech) => CommandNearer(s, ses, ok, tech);
    case _ =>
  }
}
