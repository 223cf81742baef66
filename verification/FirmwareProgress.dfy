/** A session whose waits all succeed goes through to its end: every volume is sent, then the
    version, UPDATE and CLEAN, and the receiver has got the image. */
module FirmwareProgress {
  import opened Protocol
  import opened HexImage
  import opened FirmwareWire
  import opened Crc24
  import opened FirmwareSession
  import opened FirmwareTheorems

  /** An update request with the mask that answers IS_YOU and the ids its two groups get. */
  datatype Job = Job(selected: Address, lines: seq<string>, version: real, answer: Address, vers: nat, programm: nat)

  function VolumesOf(q: Job): seq<seq<byte>> { Volumes(Parsed(q.lines)) }

  /** The file is accepted and fits the 16-bit volume count, the version fits 32 bits, some device is
      both selected and active, and both groups are accepted. */
  ghost predicate Feasible(q: Job) {
    && Acceptable(q.lines) && |VolumesOf(q)| <= 0xFFFF
    && 0.0 <= q.version && q.version * 100.0 + 0.5 < 4294967296.0
    && TargetSet(q.answer) * TargetSet(q.selected) != {}
    && q.vers != 0 && q.programm != 0
  }

  // The replies up to the first volume, and any number of sent volumes.
  function Opened(q: Job): seq<Event> {
    [UpdateFirmware(q.selected, q.lines, Some(q.version), false), DataParsed(IS_YOU, 0, q.answer, q.vers),
     GroupCompleted(q.vers, true, q.programm), GroupCompleted(q.programm, true, 0)]
  }

  function Successes(k: nat): (events: seq<Event>)
    ensures |events| == k
  {
    if k == 0 then [] else Successes(k - 1) + [CommandCompleted(true, VOLUME)]
  }

  predicate Quiet(s: State) { s.session.None? && !s.updating && !s.scenario }

  // The hundredfold version, rounded to the nearest whole number.
  predicate Rounds(code: nat, version: real) { code as real - 0.5 <= version * 100.0 < code as real + 0.5 }

  lemma VersionRounds(version: real)
    requires 0.0 <= version && version * 100.0 + 0.5 < 4294967296.0
    ensures VersionCode(Some(version)).Some? && Rounds(VersionCode(Some(version)).value, version)
  {
  }

  lemma FeasiblePlan(q: Job) returns (plan: Plan)
    requires Feasible(q)
    ensures Preflight(q.lines, Some(q.version), q.selected) == Some(plan)
    ensures Sound(plan) && Carried(plan) && plan.lines == q.lines && plan.volumes == VolumesOf(q) && plan.selected == q.selected
    ensures Rounds(plan.version, q.version) && plan.version < 0x1_0000_0000
  {
    hide VersionCode, Volumes, Acceptable, Rounds, Checksum, CrcBytes;
    VersionRounds(q.version);
    ParsedKeepsBytes(q.lines);
    VolumesKeepBytes(Parsed(q.lines));
    plan := Preflight(q.lines, Some(q.version), q.selected).value;
  }

  // ---------- One success at a time ----------

  function SessionOf(plan: Plan, q: Job, mark: nat, stage: Stage): Session {
    Session(plan, stage, q.answer, Common(q.answer, q.selected), q.vers, q.programm, mark)
  }

  predicate Waits(s: State, plan: Plan, q: Job, mark: nat, stage: Stage) { s.session == Some(SessionOf(plan, q, mark, stage)) }

  // What the session asks of the answer and of its groups.
  predicate Answered(q: Job) { q.answer != 0 && Common(q.answer, q.selected) != 0 && q.vers != 0 && q.programm != 0 }

  lemma SharedTarget(q: Job)
    requires Feasible(q)
    ensures Answered(q)
  {
    hide Acceptable, VolumesOf;
    CommonTargets(q.answer, q.selected);
    ZeroMask(1);
    assert TargetSet(0) == {};
  }

  lemma OpeningStep(s: State, q: Job, plan: Plan)
    requires Quiet(s) && Preflight(q.lines, Some(q.version), q.selected) == Some(plan)
    ensures Next(s, UpdateFirmware(q.selected, q.lines, Some(q.version), false)).session ==
      Some(Session(plan, Asking, 0, 0, 0, 0, |s.log|))
  {
    hide Preflight;
  }

  lemma AskedStep(s: State, q: Job, plan: Plan, mark: nat)
    requires Answered(q) && Sound(plan) && plan.selected == q.selected && s.session == Some(Session(plan, Asking, 0, 0, 0, 0, mark))
    ensures Next(s, DataParsed(IS_YOU, 0, q.answer, q.vers)).session ==
      Some(SessionOf(plan, q, mark, Checking).(group := q.vers))
  {
    hide Sound, Common;
  }

  lemma CheckedStep(s: State, q: Job, plan: Plan, mark: nat)
    requires Answered(q) && Sound(plan) && s.session == Some(SessionOf(plan, q, mark, Checking).(group := q.vers))
    ensures Waits(Next(s, GroupCompleted(q.vers, true, q.programm)), plan, q, mark, Entering)
  {
    hide Sound, Common;
  }

  lemma EnteredStep(s: State, q: Job, plan: Plan, mark: nat)
    requires Sound(plan) && Waits(s, plan, q, mark, Entering)
    ensures Waits(Next(s, GroupCompleted(q.programm, true, 0)), plan, q, mark, Streaming(0))
  {
    hide FirmwareWire.Request, Common;
  }

  // Where the session waits after k volumes have been sent.
  function StageAfter(plan: Plan, k: nat): Stage {
    if k < |plan.volumes| then Streaming(k) else if k == |plan.volumes| then Closing else Updating
  }

  lemma VolumeStep(s: State, q: Job, plan: Plan, mark: nat, k: nat)
    requires Sound(plan) && k <= |plan.volumes| && Waits(s, plan, q, mark, StageAfter(plan, k))
    ensures Waits(Next(s, CommandCompleted(true, VOLUME)), plan, q, mark, StageAfter(plan, k + 1))
  {
    hide FirmwareWire.Request, Common;
  }

  lemma LastSteps(s: State, q: Job, plan: Plan, mark: nat)
    requires Sound(plan)
    ensures Waits(s, plan, q, mark, Updating) ==> Waits(Next(s, CommandCompleted(true, UPDATE)), plan, q, mark, Cleaning)
    ensures Waits(s, plan, q, mark, Cleaning) ==>
      var t := Next(s, CommandCompleted(true, CLEAN)); t.session == None && t.log == s.log + [Done(CLEAN)]
  {
    hide Common;
  }

  // ---------- The whole session ----------

  lemma Opens(run: seq<Event>, q: Job, plan: Plan)
    requires Quiet(Final(run)) && Answered(q) && Sound(plan) && plan.selected == q.selected
    requires Preflight(q.lines, Some(q.version), q.selected) == Some(plan)
    ensures Waits(Final(run + Opened(q)), plan, q, |Final(run).log|, Streaming(0))
  {
    hide Final, Answered, Sound, Preflight, Common, Inv, Waits, Next, Quiet;
    var a, b := UpdateFirmware(q.selected, q.lines, Some(q.version), false), DataParsed(IS_YOU, 0, q.answer, q.vers);
    var c, d := GroupCompleted(q.vers, true, q.programm), GroupCompleted(q.programm, true, 0);
    var mark := |Final(run).log|;
    FourMore(run, a, b, c, d);
    Extended(run, a);
    Extended(run + [a], b);
    Extended(run + [a] + [b], c);
    Extended(run + [a] + [b] + [c], d);
    OpeningStep(Final(run), q, plan);
    AskedStep(Final(run + [a]), q, plan, mark);
    CheckedStep(Final(run + [a] + [b]), q, plan, mark);
    EnteredStep(Final(run + [a] + [b] + [c]), q, plan, mark);
  }

  lemma FourMore<T>(run: seq<T>, a: T, b: T, c: T, d: T)
    ensures run + [a, b, c, d] == run + [a] + [b] + [c] + [d]
  {
  }

  lemma {:induction false} Sends(run: seq<Event>, q: Job, plan: Plan, k: nat)
    requires Quiet(Final(run)) && Answered(q) && Sound(plan) && plan.selected == q.selected
    requires Preflight(q.lines, Some(q.version), q.selected) == Some(plan) && k <= |plan.volumes| + 1
    ensures Waits(Final(run + Opened(q) + Successes(k)), plan, q, |Final(run).log|, StageAfter(plan, k))
  {
    hide Final, Answered, Sound, Preflight, Common, Inv, Waits, Next, Quiet, Opened, Successes;
    var front := run + Opened(q);
    if k == 0 {
      Opens(run, q, plan);
      NoSuccess(front);
      SoundPlan(plan);
    } else {
      Sends(run, q, plan, k - 1);
      OneMoreSent(front, k);
      VolumeStep(Final(front + Successes(k - 1)), q, plan, |Final(run).log|, k - 1);
    }
  }

  lemma OneMoreSent(front: seq<Event>, k: nat)
    requires k > 0
    ensures Final(front + Successes(k)) == Next(Final(front + Successes(k - 1)), CommandCompleted(true, VOLUME))
  {
    hide Final, Next, Inv;
    Nested(front, Successes(k - 1), [CommandCompleted(true, VOLUME)]);
    Extended(front + Successes(k - 1), CommandCompleted(true, VOLUME));
  }

  lemma NoSuccess(run: seq<Event>)
    ensures run + Successes(0) == run
  {
  }

  lemma SoundPlan(plan: Plan)
    requires Sound(plan)
    ensures |plan.volumes| >= 1
  {
  }

  // ---------- What has been asked of the communication layer ----------

  predicate Newest(s: State, entry: Entry) { s.log != [] && s.log[|s.log| - 1] == entry }

  // The newest entry is a VOLUME packet that carries these bytes.
  predicate NewestPacket(s: State, payload: seq<byte>) {
    s.log != [] && s.log[|s.log| - 1].Volume? && IsVolume(s.log[|s.log| - 1].packet)
      && Parts(s.log[|s.log| - 1].packet).payload == payload
  }

  lemma ToldNewest(s: State, ses: Session)
    requires Inv(s) && s.session == Some(ses)
    ensures ses.stage.Streaming? ==> ses.stage.i < |ses.plan.volumes| && NewestPacket(s, ses.plan.volumes[ses.stage.i])
    ensures ses.stage.Closing? ==> NewestPacket(s, VersionBytes(ses.plan.version))
    ensures ses.stage.Updating? ==> Newest(s, Command(UPDATE, 0))
    ensures ses.stage.Cleaning? ==> Newest(s, Command(CLEAN, 0))
  {
    hide Checked, Delivered, Sent, Common, FirmwareWire.Request, IsVolume, VersionBytes;
    var told := s.log[ses.mark..];
    assert told != [] ==> told[|told| - 1] == s.log[|s.log| - 1];
    if ses.stage.Streaming? {
      PacketParts(StageVolume(ses.plan.volumes, ses.stage.i, ses.plan.crc));
    } else if ses.stage.Closing? {
      PacketParts(StageVersion(ses.plan.version, ses.plan.crc));
    }
  }

  /** From a quiet state, with every wait of the session answered by its success: after k volumes
      have been sent it waits with the next volume of the file as its newest packet, and after the
      last with the version, the rounded hundredfold of the one asked for. */
  lemma VolumesFollow(run: seq<Event>, q: Job, k: nat) returns (code: nat)
    requires Quiet(Final(run)) && Feasible(q) && k <= |VolumesOf(q)|
    ensures code < 0x1_0000_0000 && Rounds(code, q.version)
    ensures var s := Final(run + Opened(q) + Successes(k));
      s.updating && NewestPacket(s, if k < |VolumesOf(q)| then VolumesOf(q)[k] else VersionBytes(code))
  {
    hide Final, Answered, Sound, Carried, Preflight, Common, InPlace, Told, NewestPacket, Newest, VersionBytes, Rounds;
    var plan := FeasiblePlan(q);
    code := plan.version;
    SharedTarget(q);
    Sends(run, q, plan, k);
    var s := Final(run + Opened(q) + Successes(k));
    ToldNewest(s, s.session.value);
  }

  lemma LogGrew<T>(log: seq<T>, more: seq<T>, mark: nat)
    requires mark <= |log|
    ensures (log + more)[mark..] == log[mark..] + more
  {
  }

  lemma Delivers(s: State, ses: Session, t: State)
    requires Inv(s) && s.session == Some(ses) && ses.stage.Cleaning? && t.log == s.log + [Done(CLEAN)]
    ensures Sound(ses.plan) && PacketsOf(t.log[ses.mark..]) == Stream(ses.plan.volumes, ses.plan.crc, ses.plan.version)
  {
    hide PacketsOf, Stream, Sound, Told, Inv;
    var rest := [Done(CLEAN)];
    Recorded(s, ses);
    LogGrew(s.log, rest, ses.mark);
    PacketsConcat(Told(ses), rest);
    NoPackets(rest);
    ToldDelivers(ses);
    assert PacketsOf(Told(ses)) + [] == PacketsOf(Told(ses));
  }

  lemma Recorded(s: State, ses: Session)
    requires Inv(s) && s.session == Some(ses)
    ensures ses.mark <= |s.log| && s.log[ses.mark..] == Told(ses) && Sound(ses.plan)
  {
    hide Told, Sound, Common;
  }

  // What the last two successes do.
  ghost predicate Finishes(sent: seq<Event>, mark: nat, packets: seq<seq<byte>>) {
    var updated := sent + [CommandCompleted(true, UPDATE)];
    var over := Final(updated + [CommandCompleted(true, CLEAN)]);
    && Final(sent).updating && Newest(Final(sent), Command(UPDATE, 0))
    && Final(updated).updating && Newest(Final(updated), Command(CLEAN, 0))
    && !over.updating && mark <= |over.log|
    && PacketsOf(over.log[mark..]) == packets
  }

  lemma LastTwo(sent: seq<Event>, q: Job, plan: Plan, mark: nat)
    requires Sound(plan) && Waits(Final(sent), plan, q, mark, Updating)
    ensures Finishes(sent, mark, Stream(plan.volumes, plan.crc, plan.version))
  {
    hide Final, Sound, Common, Told, Newest, NewestPacket, PacketsOf, Stream, Next, InPlace;
    var updated := sent + [CommandCompleted(true, UPDATE)];
    var over := updated + [CommandCompleted(true, CLEAN)];
    Extended(sent, CommandCompleted(true, UPDATE));
    LastSteps(Final(sent), q, plan, mark);
    Extended(updated, CommandCompleted(true, CLEAN));
    LastSteps(Final(updated), q, plan, mark);
    ToldNewest(Final(sent), SessionOf(plan, q, mark, Updating));
    ToldNewest(Final(updated), SessionOf(plan, q, mark, Cleaning));
    Delivers(Final(updated), SessionOf(plan, q, mark, Cleaning), Final(over));
  }

  /** And on to the end: after the success of the version UPDATE is sent, after its success CLEAN, and
      after that the session is over and its packets have delivered the whole image and the version. */
  lemma SessionCompletes(run: seq<Event>, q: Job) returns (code: nat)
    requires Quiet(Final(run)) && Feasible(q)
    ensures code < 0x1_0000_0000 && Rounds(code, q.version)
    ensures var sent := run + Opened(q) + Successes(|VolumesOf(q)| + 1);
      var updated := sent + [CommandCompleted(true, UPDATE)];
      var over := Final(updated + [CommandCompleted(true, CLEAN)]);
      && Final(sent).updating && Newest(Final(sent), Command(UPDATE, 0))
      && Final(updated).updating && Newest(Final(updated), Command(CLEAN, 0))
      && !over.updating && |Final(run).log| <= |over.log|
      && Receive(PacketsOf(over.log[|Final(run).log|..])) == Some(Upload(Content(Visible(q.lines)), code))
  {
    hide Final, Feasible, Answered, Sound, Carried, Preflight, Common, Inv, Waits, Newest, Receive, PacketsOf, Stream, Content, Visible, Acceptable, VolumeSized;
    var plan := FeasiblePlan(q);
    code := plan.version;
    SharedTarget(q);
    Sends(run, q, plan, |VolumesOf(q)| + 1);
    LastTwo(run + Opened(q) + Successes(|VolumesOf(q)| + 1), q, plan, |Final(run).log|);
    PlanDelivers(plan);
  }

  // ---------- And where a wait fails ----------

  // The failure of what the session waits for, or its timer.
  predicate Fails(ses: Session, e: Event) {
    || e.WaitExpired?
    || (e.GroupCompleted? && !e.ok && e.group == ses.group && (ses.stage.Checking? || ses.stage.Entering?))
    || (e.CommandCompleted? && !e.ok && e.tech.VOLUME? && (ses.stage.Streaming? || ses.stage.Closing?))
    || (e.CommandCompleted? && !e.ok && e.tech.UPDATE? && ses.stage.Updating?)
    || (e.CommandCompleted? && !e.ok && e.tech.CLEAN? && ses.stage.Cleaning?)
  }

  /** A failed wait ends the session. After a group it throws away what waits for address 0 and for the
      devices addressed, after a command what waits for address 0, and nothing else is sent. */
  lemma FailuresClear(run: seq<Event>, e: Event)
    requires Final(run).session.Some? && Fails(Final(run).session.value, e)
    ensures var s, t := Final(run), Final(run + [e]);
      var ses := s.session.value;
      && !t.updating && t.session.None?
      && t.log == s.log + (if ses.stage.Asking? then []
                           else if ses.stage.Checking? || ses.stage.Entering? then [Cleared(ses.target)]
                           else [Cleared(0)])
  {
    hide Final, Told, InPlace, Sound;
    Extended(run, e);
    FailedStep(Final(run), e);
  }

  lemma FailedStep(s: State, e: Event)
    requires Inv(s) && s.session.Some? && Fails(s.session.value, e)
    ensures Next(s, e) == Abort(s, s.session.value) && s.log + [] == s.log
  {
    hide Told, InPlace, FirmwareWire.Request;
  }
}
