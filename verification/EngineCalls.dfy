/** What each call of the engine does with the commands it is given: where a submission goes, what a
    started group executes, what a poll and a wake-up take, and what is thrown away. */
module EngineCalls {
  import opened Protocol
  import opened EngineState
  import opened EngineSpec

  // The first start since `s`.
  predicate Starts(s: State, t: State, a: Address, cmd: Command, queued: bool) {
    |s.hist.starts| < |t.hist.starts| && t.hist.starts[|s.hist.starts|] == Start(a, cmd, queued, GroupsOpen(s))
  }

  lemma ExecStarts(s: State, a: Address, cmd: Command, suppress: bool, sent: bool)
    requires Available(s, a)
    ensures Starts(s, Exec(s, a, cmd, suppress, sent), a, cmd, FromQueue(s, cmd))
  {
    hide Begun;
    var b := Begin(s, a, cmd, suppress);
    assert |b.hist.starts| == |s.hist.starts| + 1;
    assert b.hist.starts <= Begun(b, a, cmd, suppress, sent).hist.starts;
  }

  /** A submission is ignored when it asks for TC without data. Otherwise its command starts at once on
      the address asked for, or waits last in that address's queue: it waits exactly when the address
      is executing, or is address 0 while a group is open. No other queue changes. */
  lemma SubmissionLands(s: State, tech: TechCommand, data: Option<seq<byte>>, a: Address, sent: bool)
    ensures var t := Submit(s, tech, data, a, sent);
      var cmd := Command(tech, data, s.hist.serials, 0);
      if tech == TC && data == None then t == s
      else if StateOf(s, a).Sending? || (a == 0 && GroupsOpen(s)) then
        t.queues == s.queues[a := QueueOf(s, a) + [cmd]] && t.hist.starts == s.hist.starts && t.contexts == s.contexts
      else t.queues == s.queues && Starts(s, t, a, cmd, false)
  {
    hide Exec, Create, GroupsOpen, Available;
    Created(s, a, NewCommand(s, tech, data, 0));
    if Available(s, a) {
      ExecStarts(Create(s), a, NewCommand(s, tech, data, 0), false, sent);
    }
  }

  // A fresh command has not been placed.
  lemma Created(s: State, a: Address, cmd: Command)
    requires cmd.serial == s.hist.serials
    ensures var c := Create(s);
      && c.queues == s.queues && c.contexts == s.contexts && c.hist.starts == s.hist.starts && !FromQueue(c, cmd)
      && GroupsOpen(c) == GroupsOpen(s) && Available(c, a) == Available(s, a) && Available(s, a) == !StateOf(s, a).Sending?
  {
  }

  lemma Taken(s: State, a: Address, sent: bool)
    requires QueueOf(s, a) != [] && Available(s, a)
    ensures var t := Exec(Dequeue(s, a), a, QueueOf(s, a)[0], false, sent);
      && QueueOf(t, a) == QueueOf(s, a)[1..] && Starts(s, t, a, QueueOf(s, a)[0], true)
      && forall b :: b != a ==> QueueOf(t, b) == QueueOf(s, b)
  {
    hide Exec;
    assert Available(Dequeue(s, a), a) && FromQueue(Dequeue(s, a), QueueOf(s, a)[0]);
    ExecStarts(Dequeue(s, a), a, QueueOf(s, a)[0], false, sent);
  }

  /** A wake-up starts the front of the address's queue if the address is Ready, and otherwise does
      nothing. */
  lemma WakeUpStarts(s: State, a: Address, sent: bool)
    ensures var t := ProcessNext(s, a, sent);
      if StateOf(s, a).Ready? && QueueOf(s, a) != []
      then QueueOf(t, a) == QueueOf(s, a)[1..] && Starts(s, t, a, QueueOf(s, a)[0], true)
      else t == s
  {
    hide Exec;
    if StateOf(s, a).Ready? && QueueOf(s, a) != [] {
      Taken(s, a, sent);
    }
  }

  lemma OneTaken(s: State, a: Address, sent: bool)
    ensures var t := ProcessOne(s, a, sent);
      && (forall b :: b != a ==> QueueOf(t, b) == QueueOf(s, b))
      && if QueueOf(s, a) != [] && !StateOf(s, a).Sending? && (a == 0 ==> !GroupsOpen(s))
         then QueueOf(t, a) == QueueOf(s, a)[1..] && Starts(s, t, a, QueueOf(s, a)[0], true)
         else t == s
  {
    hide Exec, GroupsOpen;
    if QueueOf(s, a) != [] && Available(s, a) {
      Taken(s, a, sent);
    }
  }

  lemma {:induction false} PollRest(s: State, order: seq<Address>, sent: set<Address>, a: Address)
    requires a !in order
    ensures QueueOf(ProcessQueue(s, order, sent), a) == QueueOf(s, a)
    decreases |order|
  {
    hide ProcessOne, QueueOf;
    if order != [] {
      assert order[0] in order;
      OneTaken(s, order[0], order[0] in sent);
      PollRest(ProcessOne(s, order[0], order[0] in sent), order[1..], sent, a);
    }
  }

  /** A poll serves every address of the map once: when the turn of `a` comes, after the addresses in
      `before`, the front of its queue starts exactly if the address is free then and, for address 0,
      no group is open. The rest of its queue is left, and the addresses in `after` do not touch it. */
  lemma {:induction false} PollServes(s: State, before: seq<Address>, a: Address, after: seq<Address>, sent: set<Address>)
    requires Distinct(before + [a] + after)
    ensures var u, t := ProcessQueue(s, before, sent), ProcessQueue(s, before + [a] + after, sent);
      && QueueOf(u, a) == QueueOf(s, a)
      && (if QueueOf(s, a) != [] && !StateOf(u, a).Sending? && (a == 0 ==> !GroupsOpen(u))
          then QueueOf(t, a) == QueueOf(s, a)[1..] && Starts(u, ProcessOne(u, a, a in sent), a, QueueOf(s, a)[0], true)
          else QueueOf(t, a) == QueueOf(s, a))
      && t == ProcessQueue(ProcessOne(u, a, a in sent), after, sent)
    decreases |before|
  {
    hide ProcessOne, QueueOf, GroupsOpen, Starts;
    var order := before + [a] + after;
    if before == [] {
      assert order[0] == a && order[1..] == after;
      forall i | 0 <= i < |after| ensures after[i] != a {
        assert order[i + 1] == after[i];
      }
      OneTaken(s, a, a in sent);
      PollRest(ProcessOne(s, a, a in sent), after, sent, a);
    } else {
      var v := ProcessOne(s, before[0], before[0] in sent);
      assert order[0] == before[0] && order[|before|] == a && order[1..] == before[1..] + [a] + after;
      OneTaken(s, before[0], before[0] in sent);
      PollServes(v, before[1..], a, after, sent);
    }
  }

  // A command of the group executes on the address.
  predicate Executes(t: State, a: Address, g: Group) {
    && StateOf(t, a).Sending? && Live(t, a) && t.contexts[a].armed
    && t.contexts[a].command.tech == g.tech && t.contexts[a].command.group == g.id && t.contexts[a].command.data.None?
  }

  lemma NotFree(s: State, a: Address, g: Group)
    ensures Executes(s, a, g) ==> !Available(s, a)
  {
  }

  lemma OneExecutes(s: State, b: Address, g: Group)
    requires !Hollow(s, g.tech) && Available(s, b)
    ensures var t := Exec(Create(s), b, NewCommand(s, g.tech, None, g.id), true, false);
      && Executes(t, b, g) && t.staged == s.staged
      && (forall a :: a != b ==> (Available(s, a) ==> Available(t, a)) && (Executes(s, a, g) ==> Executes(t, a, g)))
  {
    hide Complete;
  }

  lemma {:induction false} LoopExecutes(s: State, todo: seq<Address>, g: Group, a: Address)
    requires !Hollow(s, g.tech) && Distinct(todo) && forall b | b in todo :: Available(s, b)
    requires a in todo || Executes(s, a, g)
    requires a in todo ==> Available(s, a)
    ensures Executes(StartLoop(s, todo, g), a, g)
    decreases |todo|
  {
    hide Exec, Executes, Available, Hollow;
    if todo != [] {
      var t := Exec(Create(s), todo[0], NewCommand(s, g.tech, None, g.id), true, false);
      OneExecutes(s, todo[0], g);
      SameHollow(s, t, g.tech);
      forall b | b in todo[1..] ensures Available(t, b) {
        var i :| 0 <= i < |todo[1..]| && todo[1..][i] == b;
        assert todo[i + 1] == b && b != todo[0];
      }
      assert a in todo ==> a == todo[0] || a in todo[1..];
      NotFree(s, a, g);
      LoopExecutes(t, todo[1..], g, a);
    }
  }

  lemma SameHollow(s: State, t: State, tech: TechCommand)
    requires t.staged == s.staged
    ensures Hollow(t, tech) == Hollow(s, tech)
  {
  }

  /** A group with a request that starts, at once or deferred, executes its own command on every
      target of its mask. */
  lemma GroupExecutes(s: State, g: Group)
    requires CanStart(s, g.mask) && !Hollow(s, g.tech)
    ensures forall a :: a in Targets(g.mask) ==> Executes(StartGroup(s, g), a, g)
  {
    hide Executes, StartLoop, Targets, Hollow;
    TargetsSound(g.mask);
    var o := OpenGroup(s, g);
    SameHollow(s, o, g.tech);
    forall a | a in Targets(g.mask) ensures Executes(StartLoop(o, Targets(g.mask), g), a, g) {
      LoopExecutes(o, Targets(g.mask), g, a);
    }
  }

  /** Clearing a queue empties it and no other; a disconnect empties them all and leaves no group, but
      touches no context and no posted call. */
  lemma ThrownAway(s: State, a: Address)
    ensures forall b :: QueueOf(ClearQueue(s, a), b) == if b == a then [] else QueueOf(s, b)
    ensures ClearQueue(s, a) == s.(queues := ClearQueue(s, a).queues, hist := ClearQueue(s, a).hist)
    ensures var t := Disconnect(s);
      && (forall b :: QueueOf(t, b) == [] && StateOf(t, b).Idle?) && !GroupsOpen(t)
      && t.contexts == s.contexts && t.posted == s.posted && t.busy == s.busy && t.nextGroupId == s.nextGroupId
  {
  }
}
