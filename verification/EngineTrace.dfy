/** A small-step view of the engine. A configuration is an engine state plus the control the
    call stack holds; every call of EngineSpec is the fold of a legal sequence of guarded
    actions. An invariant of all runs then needs one proof per action, not one per call. */
module EngineTrace {
  import opened Protocol
  import opened EngineState
  import opened EngineSpec

  // `woken` marks a command that processNextCommandForAddress took from its queue.
  datatype Hand = Hand(command: Command, address: Address, woken: bool)
  datatype Settling = Settling(address: Address, ok: bool)

  /** Control between two actions: the command not yet placed (`hand`), the starts a group loop
      still owes (`owed`), a context begun but not armed (`begun`), a context holding parse
      results (`parsing`), a result not yet given to the groups (`settling`) and the number of
      calls of tryStartPendingGroupCommands still to come (`due`). */
  datatype Config = Config(
    st: State,
    hand: Option<Hand>,
    owed: set<(nat, Address)>,
    begun: Option<Address>,
    parsing: Option<Address>,
    settling: Option<Settling>,
    due: nat)

  function AtRest(s: State): Config { Config(s, None, {}, None, None, None, 0) }

  predicate Resting(c: Config) { c == AtRest(c.st) }

  datatype Action =
    // submissions
    | DoCreate(tech: TechCommand, data: Option<seq<byte>>, address: Address)
    | DoEnqueue
    | DoDefer(tech: TechCommand, mask: Address)
    | DoOpen(tech: TechCommand, mask: Address)
    // work
    | DoCreateFor(id: nat, address: Address, tech: TechCommand)
    | DoDequeue(address: Address, woken: bool)
    | DoDrop
    | DoBegin(suppress: bool)
    | DoArm
    | DoParse(address: Address, parse: Parse)
    | DoFinish(address: Address, ok: bool, message: Message)
    | DoSettle
    | DoDecline
    | DoPop
    | DoPost
    | DoTake(posted: Posted)
    | DoUnstage
    | DoStage
    | DoReportFu(address: Address, command: byte, ok: bool)
    | DoClear(address: Address)
    | DoDisconnect

  function Pairs(id: nat, todo: seq<Address>): set<(nat, Address)> { set a | a in todo :: (id, a) }

  function Owed(g: Group): set<(nat, Address)> { Pairs(g.id, Targets(g.mask)) }

  function NewGroup(s: State, tech: TechCommand, mask: Address): Group { Group(s.nextGroupId, tech, mask) }

  // Nothing is half done but the group loops on the stack.
  predicate Calm(c: Config) { c.hand.None? && c.begun.None? && c.settling.None? && c.parsing.None? }

  // While a group loop is running, only groups without a request complete anything inside it.
  predicate Loose(c: Config) { c.owed == {} || c.st.hist.hollow }

  // The command in hand may be placed: a group command takes a start its loop owes.
  predicate Holding(c: Config) {
    && c.hand.Some?
    && (if c.hand.value.command.group == 0 then c.owed == {}
        else (c.hand.value.command.group, c.hand.value.address) in c.owed)
  }

  // Only processNextCommandForAddress starts a command on address 0 past open groups.
  predicate Gate(c: Config)
    requires c.hand.Some?
  {
    c.hand.value.address == 0 ==> !GroupsOpen(c.st) || c.hand.value.woken
  }

  predicate Guard(c: Config, act: Action) {
    match act
    case DoCreate(_, _, _) => Resting(c)
    case DoEnqueue => Holding(c) && c.hand.value.command.group == 0 && !FromQueue(c.st, c.hand.value.command)
    case DoDefer(_, mask) => Resting(c) && mask != 0 && !CanStart(c.st, mask)
    case DoOpen(_, mask) => Resting(c) && CanStart(c.st, mask)
    case DoCreateFor(id, a, _) => Calm(c) && (id, a) in c.owed && id != 0
    case DoDequeue(a, woken) => Resting(c) && QueueOf(c.st, a) != [] && (woken ==> WakeUp(a) in c.st.posted)
    case DoDrop => Holding(c) && c.hand.value.command.group != 0 && !Available(c.st, c.hand.value.address)
    case DoBegin(suppress) =>
      Holding(c) && c.begun.None? && c.settling.None? && c.parsing.None? && Available(c.st, c.hand.value.address) &&
      Gate(c)
    case DoArm => c.begun.Some? && Live(c.st, c.begun.value)
    case DoParse(a, p) => Live(c.st, a) && Calm(c) && c.owed == {}
    case DoFinish(a, ok, msg) =>
      Live(c.st, a) && c.hand.None? && c.settling.None? && (c.begun.None? || c.begun.value == a) &&
      (c.parsing.None? || c.parsing.value == a) && Loose(c)
    case DoSettle => c.settling.Some? && c.due > 0 && c.hand.None? && c.begun.None? && c.parsing.None?
    case DoDecline => c.due > 0 && Calm(c) && (c.st.pending == [] || !CanStart(c.st, c.st.pending[0].mask))
    case DoPop => c.due > 0 && Calm(c) && Loose(c) && c.st.pending != [] && CanStart(c.st, c.st.pending[0].mask)
    case DoPost => Calm(c)
    case DoTake(p) => Resting(c) && p in c.st.posted
    case DoUnstage => c.hand.None? && c.owed == {}
    case DoStage => Resting(c)
    case DoReportFu(_, _, _) => Resting(c)
    case DoClear(_) => Resting(c)
    case DoDisconnect => Resting(c)
  }

  // The hand is emptied, and with it the start it was owed.
  function Placed(c: Config): Config
    requires c.hand.Some?
  {
    c.(hand := None, owed := c.owed - {(c.hand.value.command.group, c.hand.value.address)})
  }

  function Do(c: Config, act: Action): Config
    requires Guard(c, act)
  {
    match act
    case DoCreate(tech, data, a) => c.(st := Create(c.st), hand := Some(Hand(NewCommand(c.st, tech, data, 0), a, false)))
    case DoEnqueue => Placed(c).(st := Enqueue(c.st, c.hand.value.address, c.hand.value.command))
    case DoDefer(tech, mask) => c.(st := Defer(AcceptGroup(c.st, tech, mask), NewGroup(c.st, tech, mask)))
    case DoOpen(tech, mask) =>
      var g := NewGroup(c.st, tech, mask);
      c.(st := OpenGroup(AcceptGroup(c.st, tech, mask), g), owed := Owed(g))
    case DoCreateFor(id, a, tech) => c.(st := Create(c.st), hand := Some(Hand(NewCommand(c.st, tech, None, id), a, false)))
    case DoDequeue(a, woken) =>
      var s := if woken then Take(c.st, WakeUp(a)) else c.st;
      c.(st := Dequeue(s, a), hand := Some(Hand(QueueOf(c.st, a)[0], a, woken)))
    case DoDrop => Placed(c).(st := Drop(c.st, c.hand.value.command))
    case DoBegin(suppress) =>
      Placed(c).(st := Begin(c.st, c.hand.value.address, c.hand.value.command, suppress), begun := Some(c.hand.value.address))
    case DoArm => c.(st := Arm(c.st, c.begun.value), begun := None)
    case DoParse(a, p) => c.(st := SetParse(c.st, a, p), parsing := Some(a))
    case DoFinish(a, ok, msg) =>
      c.(st := Finish(c.st, a, ok, msg), begun := None, parsing := None, settling := Some(Settling(a, ok)), due := c.due + 1)
    case DoSettle => c.(st := Settle(c.st, c.settling.value.address, c.settling.value.ok), settling := None)
    case DoDecline => c.(due := c.due - 1)
    case DoPop =>
      var g := c.st.pending[0];
      c.(st := OpenGroup(PopPending(c.st), g), owed := c.owed + Owed(g), due := c.due - 1)
    case DoPost => c.(st := Post(c.st))
    case DoTake(p) => c.(st := Take(c.st, p))
    case DoUnstage => c.(st := Unstage(c.st))
    case DoStage => c.(st := Stage(c.st))
    case DoReportFu(a, command, ok) => c.(st := ReportFu(c.st, a, command, ok))
    case DoClear(a) => c.(st := ClearQueue(c.st, a))
    case DoDisconnect => c.(st := Disconnect(c.st))
  }

  // ---------- What each kind of action leaves alone ----------

  predicate OnHand(act: Action) { act.DoCreate? || act.DoCreateFor? || act.DoEnqueue? || act.DoDequeue? || act.DoDrop? }

  predicate OnControl(act: Action) {
    act.DoDecline? || act.DoPost? || act.DoTake? || act.DoUnstage? || act.DoStage? || act.DoReportFu?
  }

  predicate OnGroups(act: Action) { act.DoDefer? || act.DoOpen? || act.DoPop? || act.DoSettle? }

  predicate OnContext(act: Action) { act.DoArm? || act.DoParse? }

  predicate HandView(c: Config, d: Config) {
    && d == c.(st := d.st, hand := d.hand, owed := d.owed) && d.owed <= c.owed
    && d.st == c.st.(queues := d.st.queues, posted := d.st.posted,
                     hist := c.st.hist.(fate := d.st.hist.fate, serials := d.st.hist.serials))
  }

  predicate ControlView(c: Config, d: Config) {
    && d == c.(st := d.st, due := d.due)
    && d.st == c.st.(posted := d.st.posted, staged := d.st.staged, hist := c.st.hist.(fuReports := d.st.hist.fuReports))
  }

  predicate GroupsView(c: Config, act: Action, d: Config) {
    && d == c.(st := d.st, owed := d.owed, settling := d.settling, due := d.due)
    && d.st == c.st.(groups := d.st.groups, pending := d.st.pending, nextGroupId := d.st.nextGroupId,
                     hist := c.st.hist.(requests := d.st.hist.requests, verdicts := d.st.hist.verdicts,
                                        released := d.st.hist.released, hollow := d.st.hist.hollow))
    && (act.DoPop? || act.DoSettle? ==> d.st.hist.requests == c.st.hist.requests && d.st.nextGroupId == c.st.nextGroupId)
    && (if act.DoSettle? then SettleView(c, d) else d.st.hist.verdicts == c.st.hist.verdicts)
  }

  predicate SettleView(c: Config, d: Config) {
    && d == c.(st := d.st, settling := d.settling)
    && d.st == c.st.(groups := d.st.groups, hist := c.st.hist.(verdicts := d.st.hist.verdicts))
    && c.st.hist.verdicts <= d.st.hist.verdicts
  }

  predicate DisconnectView(c: Config, d: Config) {
    && d == c.(st := d.st)
    && d.st == c.st.(queues := map[], pending := [], groups := map[], states := map[],
                     hist := c.st.hist.(fate := d.st.hist.fate, abandoned := d.st.hist.abandoned, disconnected := true))
  }

  predicate ContextView(c: Config, d: Config) {
    d == c.(st := c.st.(contexts := d.st.contexts), begun := d.begun, parsing := d.parsing)
  }

  predicate QueueView(c: Config, d: Config) {
    d == c.(st := c.st.(queues := d.st.queues, hist := c.st.hist.(fate := d.st.hist.fate)))
  }

  predicate StartView(c: Config, d: Config) {
    && d == c.(st := d.st, hand := d.hand, owed := d.owed, begun := d.begun) && d.owed <= c.owed
    && d.st == c.st.(contexts := d.st.contexts, states := d.st.states, busy := d.st.busy,
                     hist := c.st.hist.(fate := d.st.hist.fate, starts := d.st.hist.starts))
    && c.st.hist.starts <= d.st.hist.starts
  }

  predicate EndView(c: Config, d: Config) {
    && d == c.(st := d.st, begun := d.begun, parsing := d.parsing, settling := d.settling, due := d.due)
    && d.st == c.st.(contexts := d.st.contexts, states := d.st.states, busy := d.st.busy, posted := d.st.posted,
                     hist := c.st.hist.(fate := d.st.hist.fate, completions := d.st.hist.completions))
    && c.st.hist.completions <= d.st.hist.completions
  }

  lemma HandFrame(c: Config, act: Action)
    requires Guard(c, act) && OnHand(act)
    ensures HandView(c, Do(c, act))
  {
    hide CanStart;
  }

  lemma ControlFrame(c: Config, act: Action)
    requires Guard(c, act) && OnControl(act)
    ensures ControlView(c, Do(c, act))
  {
    hide CanStart;
  }

  lemma GroupsFrame(c: Config, act: Action)
    requires Guard(c, act) && OnGroups(act)
    ensures GroupsView(c, act, Do(c, act))
  {
    hide CanStart, TargetSet, Settle;
  }

  lemma SignalFrame(c: Config, act: Action)
    requires Guard(c, act)
    ensures act.DoBegin? ==> StartView(c, Do(c, act))
    ensures act.DoFinish? ==> EndView(c, Do(c, act))
    ensures OnContext(act) ==> ContextView(c, Do(c, act))
    ensures act.DoClear? ==> QueueView(c, Do(c, act))
    ensures act.DoDisconnect? ==> DisconnectView(c, Do(c, act))
  {
    hide CanStart, TargetSet, Begin, Finish;
  }

  /** Every action changes only what its kind may change. */
  lemma Frame(c: Config, act: Action)
    requires Guard(c, act)
    ensures OnHand(act) ==> HandView(c, Do(c, act))
    ensures OnControl(act) ==> ControlView(c, Do(c, act))
    ensures OnGroups(act) ==> GroupsView(c, act, Do(c, act))
    ensures act.DoBegin? ==> StartView(c, Do(c, act))
    ensures act.DoFinish? ==> EndView(c, Do(c, act))
    ensures OnContext(act) ==> ContextView(c, Do(c, act))
    ensures act.DoClear? ==> QueueView(c, Do(c, act))
    ensures act.DoDisconnect? ==> DisconnectView(c, Do(c, act))
    ensures OnHand(act) || OnControl(act) || OnGroups(act) || OnContext(act) || act.DoBegin? || act.DoFinish? || act.DoClear?
      || act.DoDisconnect?
  {
    hide Do, Guard, HandView, ControlView, GroupsView, StartView, EndView, ContextView, QueueView, DisconnectView;
    if OnHand(act) {
      HandFrame(c, act);
    } else if OnControl(act) {
      ControlFrame(c, act);
    } else if OnGroups(act) {
      GroupsFrame(c, act);
    } else {
      SignalFrame(c, act);
    }
  }

  // ---------- Sequences of actions ----------

  predicate Legal(c: Config, acts: seq<Action>)
    decreases |acts|
  {
    acts == [] || (Guard(c, acts[0]) && Legal(Do(c, acts[0]), acts[1..]))
  }

  function Fold(c: Config, acts: seq<Action>): Config
    requires Legal(c, acts)
    decreases |acts|
  {
    if acts == [] then c else Fold(Do(c, acts[0]), acts[1..])
  }

  // `acts` leads from `c` to `d`.
  predicate Leads(c: Config, acts: seq<Action>, d: Config) { Legal(c, acts) && Fold(c, acts) == d }

  lemma {:induction false} Join(c: Config, xs: seq<Action>, d: Config, ys: seq<Action>, e: Config)
    requires Leads(c, xs, d) && Leads(d, ys, e)
    ensures Leads(c, xs + ys, e)
    decreases |xs|
  {
    if xs == [] {
      assert xs + ys == ys;
    } else {
      Join(Do(c, xs[0]), xs[1..], d, ys, e);
      assert (xs + ys)[1..] == xs[1..] + ys;
    }
  }

  lemma One(c: Config, act: Action)
    requires Guard(c, act)
    ensures Leads(c, [act], Do(c, act))
  {
    assert [act][1..] == [];
  }

  lemma PairsStep(id: nat, todo: seq<Address>)
    requires todo != [] && Distinct(todo)
    ensures Pairs(id, todo) == {(id, todo[0])} + Pairs(id, todo[1..])
    ensures (id, todo[0]) !in Pairs(id, todo[1..])
    ensures Distinct(todo[1..])
  {
    forall a | a in todo ensures a == todo[0] || a in todo[1..] {
      var i :| 0 <= i < |todo| && todo[i] == a;
      assert i > 0 ==> todo[1..][i - 1] == a;
    }
  }

  // ---------- Identifiers of deferred groups ----------

  /** Deferred groups are in increasing id order, were all issued before, and are owed nothing. */
  ghost predicate Ids(c: Config) {
    && 0 < c.st.nextGroupId
    && (forall i :: 0 <= i < |c.st.pending| ==> 0 < c.st.pending[i].id < c.st.nextGroupId)
    && (forall i, j :: 0 <= i < j < |c.st.pending| ==> c.st.pending[i].id < c.st.pending[j].id)
    && (forall i, a :: 0 <= i < |c.st.pending| ==> (c.st.pending[i].id, a) !in c.owed)
    && ReleasedInOrder(c.st)
  }

  // Deferred groups leave in increasing id order.
  ghost predicate ReleasedInOrder(s: State) {
    && (forall i :: 0 <= i < |s.hist.released| ==> s.hist.released[i] < s.nextGroupId)
    && (forall i, j :: 0 <= i < j < |s.hist.released| ==> s.hist.released[i] < s.hist.released[j])
    && (forall i, j :: 0 <= i < |s.hist.released| && 0 <= j < |s.pending| ==> s.hist.released[i] < s.pending[j].id)
  }

  // Only group actions touch the deferred groups; the others owe nothing new.
  lemma GroupFrame(c: Config, act: Action)
    requires Guard(c, act)
    requires !act.DoDefer? && !act.DoPop? && !act.DoOpen? && !act.DoDisconnect?
    ensures Do(c, act).st.pending == c.st.pending && Do(c, act).st.nextGroupId == c.st.nextGroupId
    ensures Do(c, act).owed <= c.owed && Do(c, act).st.hist.released == c.st.hist.released
  {
    hide Do, Guard;
    Frame(c, act);
  }

  lemma IdsLocal(c: Config, act: Action)
    requires Ids(c) && Guard(c, act) && (act.DoDefer? || act.DoOpen? || act.DoDisconnect?)
    ensures Ids(Do(c, act))
  {
    hide CanStart, TargetSet;
  }

  lemma IdsOther(c: Config, act: Action)
    requires Ids(c) && Guard(c, act) && !act.DoDefer? && !act.DoPop? && !act.DoOpen? && !act.DoDisconnect?
    ensures Ids(Do(c, act))
  {
    hide Do, Guard;
    GroupFrame(c, act);
  }

  lemma IdsKept(c: Config, act: Action)
    requires Ids(c) && Guard(c, act)
    ensures Ids(Do(c, act))
  {
    hide Do, Guard, Ids;
    if act.DoPop? {
      IdsPopped(c);
    } else if act.DoDefer? || act.DoOpen? || act.DoDisconnect? {
      IdsLocal(c, act);
    } else {
      IdsOther(c, act);
    }
  }

  lemma IdsPopped(c: Config)
    requires Ids(c) && Guard(c, DoPop)
    ensures Ids(Do(c, DoPop))
  {
    var d := Do(c, DoPop);
    assert forall i :: 0 <= i < |d.st.pending| ==> d.st.pending[i] == c.st.pending[i + 1];
    assert d.st.hist.released == c.st.hist.released + [c.st.pending[0].id];
  }

  lemma {:induction false} IdsFold(c: Config, acts: seq<Action>, d: Config)
    requires Ids(c) && Leads(c, acts, d)
    ensures Ids(d)
    decreases |acts|
  {
    if acts != [] {
      IdsKept(c, acts[0]);
      IdsFold(Do(c, acts[0]), acts[1..], d);
    }
  }
}
