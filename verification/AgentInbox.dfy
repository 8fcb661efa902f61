// The durable inbox: an acknowledged human message is reduced at most once, and until then every
// start replays it, although a reduction never asks whether its event was reduced before.
module AgentInbox {
  import opened Base
  import opened Agent

  ghost predicate LogInv(d: Store) {
    && Distinct(d.order) && (forall id :: id in d.order <==> id in d.log)
    && Distinct(d.turns) && (forall id :: id in d.turns <==> id in d.log && d.log[id].reduced)
  }

  // A queued human message is accepted and not yet reduced.
  ghost predicate Waits(d: Store, ev: Event) {
    ev.Human? ==> ev.id in d.log && d.log[ev.id] == Entry(ev.at, false)
  }

  // Every accepted message is reduced or queued, `ev` aside.
  ghost predicate QueuedBut(log: map<Id, Entry>, queue: seq<Event>, ev: Event) {
    forall id :: id in log && !log[id].reduced && Human(id, log[id].at) != ev ==> Human(id, log[id].at) in queue
  }

  ghost predicate AllQueued(log: map<Id, Entry>, queue: seq<Event>) { QueuedBut(log, queue, Reconcile(0)) }

  // The inbox tables and the queue agree, and a start still owes every message it recovered.
  ghost predicate InboxInv(s: State) {
    QueueInv(s) && (s.vol.phase.Starting? ==> AllQueued(s.store.log, s.vol.queue))
  }

  ghost predicate QueueInv(s: State) {
    && LogInv(s.store)
    && (forall i :: 0 <= i < |s.vol.queue| ==> Waits(s.store, s.vol.queue[i]))
    && (forall i, j :: 0 <= i < j < |s.vol.queue| && s.vol.queue[i].Human? && s.vol.queue[j].Human?
          ==> s.vol.queue[i].id != s.vol.queue[j].id)
    && (s.vol.phase.Starting? ==>
          && s.vol.phase.replay <= |s.vol.queue| && (forall i :: 0 <= i < s.vol.phase.replay ==> s.vol.queue[i].Human?))
    && (s.vol.phase.Down? ==> s.vol == Nothing())
  }

  lemma LlmOnInbox(d: Store, w: Id, cycle: Id, body: Body, at: int, ch: Choice)
    ensures var d' := HandleLlmResult(d, w, cycle, body, at, ch).store;
            d'.order == d.order && d'.turns == d.turns && d'.log == d.log
  {
    if w in d.work {
      var done := d.(work := SetStatus(d.work, w, COMPLETED));
      assert Fail(done, w).log == d.log && Fail(d, w).log == d.log;
      assert FinishMandatory(done, w, cycle, body.Speak?, at, ch).store.log == d.log;
      assert FinishReactive(done, cycle, body.Speak?, at, ch).store.log == d.log;
      assert FinishProactive(done, cycle, body.Speak?, at, ch).store.log == d.log;
    }
  }

  // Every handler, seen from the inbox.
  lemma HandleOnInbox(s: State, ev: Event, ch: Choice)
    requires Handle(s, ev, ch).Some?
    ensures var d, d' := s.store, Handle(s, ev, ch).value.store;
            && d'.order == d.order
            && d'.turns == (if ev.Human? then d.turns + [ev.id] else d.turns)
            && d'.log == (if ev.Human? then d.log[ev.id := Entry(ev.at, true)] else d.log)
  {
    match ev
    case LlmResult(w, cycle, body, at) => LlmOnInbox(s.store, w, cycle, body, at, ch);
    case Human(_, _) =>
    case Wake(_, _, _) =>
    case EmbeddingResult(_, _) =>
    case Reconcile(_) =>
  }

  lemma ProcessOnInbox(s: State, ev: Event, ch: Choice, leased: set<Id>, fault: bool, finite: bool)
    ensures var s' := Process(s, ev, ch, leased, fault, finite);
            && s'.vol.queue == s.vol.queue && s'.vol.phase == s.vol.phase
            && s'.store.order == s.store.order
            && (|| (s'.store.turns == s.store.turns && s'.store.log == s.store.log)
                || (&& ev.Human? && s'.store.turns == s.store.turns + [ev.id]
                    && s'.store.log == s.store.log[ev.id := Entry(ev.at, true)]))
  {
    if Handle(s, ev, ch).Some? { HandleOnInbox(s, ev, ch); }
  }

  lemma ProcessKeepsInbox(s: State, ev: Event, ch: Choice, leased: set<Id>, fault: bool, finite: bool)
    requires QueueInv(s) && Waits(s.store, ev) && !s.vol.phase.Down?
    requires ev.Human? ==> forall i :: 0 <= i < |s.vol.queue| && s.vol.queue[i].Human? ==> s.vol.queue[i].id != ev.id
    ensures QueueInv(Process(s, ev, ch, leased, fault, finite))
    ensures QueuedBut(s.store.log, s.vol.queue, ev) && Handle(s, ev, ch).Some? ==>
              AllQueued(Process(s, ev, ch, leased, fault, finite).store.log, s.vol.queue)
    ensures s.store.turns <= Process(s, ev, ch, leased, fault, finite).store.turns
  {
    ProcessOnInbox(s, ev, ch, leased, fault, finite);
    if Handle(s, ev, ch).Some? { HandleOnInbox(s, ev, ch); }
    var s' := Process(s, ev, ch, leased, fault, finite);
    forall i | 0 <= i < |s'.vol.queue| ensures Waits(s'.store, s'.vol.queue[i]) {
      assert Waits(s.store, s.vol.queue[i]);
    }
  }

  lemma PopKeepsInbox(s: State)
    requires InboxInv(s) && s.vol.queue != []
    requires s.vol.phase.Starting? ==> s.vol.phase.replay > 0
    ensures var s' := if s.vol.phase.Starting? then PopReplay(s) else Pop(s);
            var ev := s.vol.queue[0];
            && QueueInv(s') && Waits(s'.store, ev)
            && (AllQueued(s.store.log, s.vol.queue) ==> QueuedBut(s'.store.log, s'.vol.queue, ev))
            && (ev.Human? ==> forall i :: 0 <= i < |s'.vol.queue| && s'.vol.queue[i].Human? ==> s'.vol.queue[i].id != ev.id)
  {
    assert Waits(s.store, s.vol.queue[0]);
    forall i | 0 <= i < |s.vol.queue[1..]| ensures Waits(s.store, s.vol.queue[1..][i]) {
      assert Waits(s.store, s.vol.queue[i + 1]);
    }
  }

  // ---------------------------------------------------------------- what a start replays

  ghost predicate Before(order: seq<Id>, a: Id, b: Id) {
    exists p, q :: 0 <= p < q < |order| && order[p] == a && order[q] == b
  }

  // Exactly the accepted, unreduced messages: each once, oldest first.
  ghost predicate ReplaysAll(order: seq<Id>, log: map<Id, Entry>, events: seq<Event>) {
    && (forall i :: 0 <= i < |events| ==>
          events[i].Human? && events[i].id in order && events[i].id in log && log[events[i].id] == Entry(events[i].at, false))
    && (forall id :: id in order && id in log && !log[id].reduced ==> Human(id, log[id].at) in events)
    && (forall i, j :: 0 <= i < j < |events| ==> Before(order, events[i].id, events[j].id))
  }

  lemma TailBefore(order: seq<Id>, a: Id, b: Id)
    requires order != [] && Before(order[1..], a, b)
    ensures Before(order, a, b)
  {
    var p, q :| 0 <= p < q < |order[1..]| && order[1..][p] == a && order[1..][q] == b;
    assert order[p + 1] == a && order[q + 1] == b;
  }

  lemma HeadBefore(order: seq<Id>, b: Id)
    requires order != [] && b in order[1..]
    ensures Before(order, order[0], b)
  {
    var q :| 0 <= q < |order[1..]| && order[1..][q] == b;
    assert order[q + 1] == b;
  }

  lemma {:induction false} UnreducedReplaysAll(order: seq<Id>, log: map<Id, Entry>)
    requires Distinct(order)
    ensures ReplaysAll(order, log, Unreduced(order, log))
    ensures forall i, j :: 0 <= i < j < |Unreduced(order, log)| ==> Unreduced(order, log)[i].id != Unreduced(order, log)[j].id
  {
    if order != [] {
      var rest, all := Unreduced(order[1..], log), Unreduced(order, log);
      UnreducedReplaysAll(order[1..], log);
      forall i, j | 0 <= i < j < |all| ensures Before(order, all[i].id, all[j].id) && all[i].id != all[j].id {
        if |all| == |rest| {
          TailBefore(order, all[i].id, all[j].id);
        } else if i == 0 {
          assert all[j] == rest[j - 1];
          HeadBefore(order, all[j].id);
        } else {
          assert all[i] == rest[i - 1] && all[j] == rest[j - 1];
          TailBefore(order, all[i].id, all[j].id);
        }
      }
    }
  }

  lemma RecoverKeeps(s: State, todo: seq<Id>)
    requires InboxInv(s) && Enabled(s, Recover(todo))
    ensures var s' := Next(s, Recover(todo));
            InboxInv(s') && Monotone(s.store, s'.store)
            && s'.vol.phase.replay == |s'.vol.queue| && ReplaysAll(s.store.order, s.store.log, s'.vol.queue)
  {
    UnreducedReplaysAll(s.store.order, s.store.log);
  }

  // ---------------------------------------------------------------- every step, every run

  lemma IngestKeeps(s: State, id: Id, at: int)
    requires InboxInv(s) && Enabled(s, Ingest(id, at))
    ensures InboxInv(Next(s, Ingest(id, at))) && Monotone(s.store, Next(s, Ingest(id, at)).store)
    ensures id in Next(s, Ingest(id, at)).store.log
  {
    var s' := Next(s, Ingest(id, at));
    forall i | 0 <= i < |s.vol.queue| ensures Waits(s'.store, s.vol.queue[i]) {
      assert Waits(s.store, s.vol.queue[i]);
    }
  }

  // A message once accepted stays accepted; a turn once recorded stays recorded.
  ghost predicate Monotone(d: Store, d': Store) {
    d.turns <= d'.turns && d.log.Keys <= d'.log.Keys
  }

  // Steps that leave the inbox tables alone and at most append one event that is not a message.
  lemma OtherKeepsInbox(s: State, s': State)
    requires InboxInv(s) && s'.store.order == s.store.order && s'.store.turns == s.store.turns && s'.store.log == s.store.log
    requires s'.vol.phase == s.vol.phase || s'.vol.phase.Up? || s'.vol.phase.Stopping? || s'.vol == Nothing()
             || (s.vol.phase.Starting? && s'.vol.phase.Starting? && s'.vol.phase.replay == s.vol.phase.replay)
    requires !s.vol.phase.Down?
    requires || s'.vol.queue == s.vol.queue || s'.vol == Nothing()
             || (exists ev: Event :: !ev.Human? && s'.vol.queue == s.vol.queue + [ev])
    ensures InboxInv(s') && Monotone(s.store, s'.store)
  {
    forall i | 0 <= i < |s'.vol.queue| ensures Waits(s'.store, s'.vol.queue[i]) {
      assert i < |s.vol.queue| ==> Waits(s.store, s.vol.queue[i]);
    }
  }

  lemma ReduceKeepsInbox(s: State, ch: Choice, leased: set<Id>, fault: bool, finite: bool)
    requires InboxInv(s) && Enabled(s, Reduce(ch, leased, fault, finite))
    ensures var s' := Next(s, Reduce(ch, leased, fault, finite)); InboxInv(s') && Monotone(s.store, s'.store)
  {
    PopKeepsInbox(s);
    ProcessKeepsInbox(Pop(s), s.vol.queue[0], ch, leased, fault, finite);
    ProcessOnInbox(Pop(s), s.vol.queue[0], ch, leased, fault, finite);
  }

  lemma DrainKeepsInbox(s: State, ch: Choice)
    requires InboxInv(s) && Enabled(s, DrainNext(ch))
    ensures InboxInv(Next(s, DrainNext(ch))) && Monotone(s.store, Next(s, DrainNext(ch)).store)
  {
    PopKeepsInbox(s);
    if IsShutdownReducible(s.vol.queue[0]) {
      ProcessKeepsInbox(Pop(s), s.vol.queue[0], ch, {}, true, false);
      ProcessOnInbox(Pop(s), s.vol.queue[0], ch, {}, true, false);
    }
  }

  // The steps that reduce no event and accept none.
  lemma RestKeepsInbox(s: State, step: Step)
    requires InboxInv(s) && Enabled(s, step)
    requires !step.Ingest? && !step.Reduce? && !step.DrainNext? && !step.ReplayNext? && !step.StartEnds? && !step.Recover?
    ensures InboxInv(Next(s, step)) && Monotone(s.store, Next(s, step).store)
  {
    if step.ReduceFails? { PopKeepsInbox(s); } else { OtherKeepsInbox(s, Next(s, step)); }
  }

  lemma InboxNext(s: State, step: Step)
    requires InboxInv(s) && Enabled(s, step)
    ensures InboxInv(Next(s, step)) && Monotone(s.store, Next(s, step).store)
  {
    hide *;
    match step
    case Ingest(id, at) => IngestKeeps(s, id, at);
    case Reduce(ch, leased, fault, finite) => ReduceKeepsInbox(s, ch, leased, fault, finite);
    case DrainNext(ch) => DrainKeepsInbox(s, ch);
    case ReplayNext(ch, finite) => ReplayKeepsInbox(s, ch, finite);
    case StartEnds(ch, at, finite) => StartEndsKeepsInbox(s, ch, at, finite);
    case Recover(todo) => RecoverKeeps(s, todo);
    case _ => RestKeepsInbox(s, step);
  }

  lemma StartEndsKeepsInbox(s: State, ch: Choice, at: int, finite: bool)
    requires InboxInv(s) && Enabled(s, StartEnds(ch, at, finite))
    ensures InboxInv(Next(s, StartEnds(ch, at, finite))) && Monotone(s.store, Next(s, StartEnds(ch, at, finite)).store)
  {
    var ev := Reconcile(at);
    ProcessKeepsInbox(s, ev, ch, All(s, ev, ch), false, finite);
    ProcessOnInbox(s, ev, ch, All(s, ev, ch), false, finite);
    OtherKeepsInbox(Process(s, ev, ch, All(s, ev, ch), false, finite), Next(s, StartEnds(ch, at, finite)));
  }

  lemma ReplayKeepsInbox(s: State, ch: Choice, finite: bool)
    requires InboxInv(s) && Enabled(s, ReplayNext(ch, finite))
    ensures InboxInv(Next(s, ReplayNext(ch, finite))) && Monotone(s.store, Next(s, ReplayNext(ch, finite)).store)
    ensures s.vol.queue[0].id in Next(s, ReplayNext(ch, finite)).store.turns
  {
    PopKeepsInbox(s);
    var s', ev := PopReplay(s), s.vol.queue[0];
    assert Handle(s', ev, ch) == Handle(s, ev, ch);
    ProcessKeepsInbox(s', ev, ch, All(s', ev, ch), false, finite);
    HandleOnInbox(s', ev, ch);
    ProcessOnInbox(s', ev, ch, All(s', ev, ch), false, finite);
  }

  lemma {:induction false} InboxRun(s: State, run: seq<Step>)
    requires InboxInv(s) && ValidRun(s, run)
    ensures InboxInv(Exec(s, run)) && Monotone(s.store, Exec(s, run).store)
    decreases |run|
  {
    if run != [] {
      InboxNext(s, run[0]);
      InboxRun(Next(s, run[0]), run[1..]);
    }
  }

  // ---------------------------------------------------------------- a whole start

  // Among the recovered messages still to be replayed.
  ghost predicate ToReplay(s: State, id: Id) {
    && s.vol.phase.Starting? && s.vol.phase.replay <= |s.vol.queue|
    && exists i :: 0 <= i < s.vol.phase.replay && s.vol.queue[i].Human? && s.vol.queue[i].id == id
  }

  lemma ReplayShape(s: State, ch: Choice, finite: bool)
    requires Enabled(s, ReplayNext(ch, finite))
    ensures var s' := Next(s, ReplayNext(ch, finite));
            s'.vol.queue == s.vol.queue[1..] && s'.vol.phase == s.vol.phase.(replay := s.vol.phase.replay - 1)
  {
    ProcessOnInbox(PopReplay(s), s.vol.queue[0], ch, All(PopReplay(s), s.vol.queue[0], ch), false, finite);
    hide Process, Handle;
  }

  // A start under way leaves the messages it still has to replay in place, and reduces the others.
  lemma ReplayReduces(s: State, ch: Choice, finite: bool, id: Id)
    requires InboxInv(s) && Enabled(s, ReplayNext(ch, finite)) && ToReplay(s, id)
    ensures var s' := Next(s, ReplayNext(ch, finite)); s'.vol.phase.Starting? && (ToReplay(s', id) || id in s'.store.turns)
  {
    ReplayKeepsInbox(s, ch, finite);
    ReplayShape(s, ch, finite);
    hide InboxInv, Next, Enabled;
    var s' := Next(s, ReplayNext(ch, finite));
    var i :| 0 <= i < s.vol.phase.replay && s.vol.queue[i].Human? && s.vol.queue[i].id == id;
    if i > 0 {
      assert s'.vol.queue[i - 1] == s.vol.queue[i];
    }
  }

  // A start does not end while a message is still to be replayed.
  lemma NotYet(s: State, step: Step, id: Id)
    requires Enabled(s, step) && ToReplay(s, id)
    ensures !step.StartEnds?
  {
  }

  lemma StartingNext(s: State, step: Step, id: Id)
    requires InboxInv(s) && Enabled(s, step) && s.vol.phase.Starting? && !step.Crash? && !step.StartEnds?
    requires ToReplay(s, id)
    ensures var s' := Next(s, step); s'.vol.phase.Starting? && (ToReplay(s', id) || id in s'.store.turns)
  {
    if step.ReplayNext? {
      ReplayReduces(s, step.ch, step.finite, id);
    } else {
      hide InboxInv, Process, Handle;
      var s' := Next(s, step);
      var i :| 0 <= i < s.vol.phase.replay && s.vol.queue[i].Human? && s.vol.queue[i].id == id;
      assert s'.vol.queue[i] == s.vol.queue[i];
    }
  }

  lemma {:induction false} StartReduces(s: State, run: seq<Step>, id: Id)
    requires InboxInv(s) && ValidRun(s, run) && s.vol.phase.Starting? && (ToReplay(s, id) || id in s.store.turns)
    requires forall k :: 0 <= k < |run| ==> !run[k].Crash?
    requires exists k :: 0 <= k < |run| && run[k].StartEnds?
    ensures id in Exec(s, run).store.turns
    decreases |run|
  {
    hide InboxInv, Next, Enabled, ToReplay;
    if id in s.store.turns {
      InboxRun(s, run);
    } else {
      NotYet(s, run[0], id);
      StartingNext(s, run[0], id);
      InboxNext(s, run[0]);
      if id in Next(s, run[0]).store.turns {
        InboxRun(Next(s, run[0]), run[1..]);
      } else {
        assert forall k :: 1 <= k < |run| ==> run[k] == run[1..][k - 1];
        StartReduces(Next(s, run[0]), run[1..], id);
      }
    }
  }

  lemma RecoverReplays(s: State, todo: seq<Id>, id: Id)
    requires InboxInv(s) && Enabled(s, Recover(todo)) && id in s.store.log
    ensures var s' := Next(s, Recover(todo)); ToReplay(s', id) || id in s'.store.turns
  {
    UnreducedReplaysAll(s.store.order, s.store.log);
    if !s.store.log[id].reduced {
      var q := Unreduced(s.store.order, s.store.log);
      var i :| 0 <= i < |q| && q[i] == Human(id, s.store.log[id].at);
      assert q[i].Human? && q[i].id == id;
    }
  }

  // Once recovered, a message accepted before is in the conversation or still to be replayed.
  lemma Recovered(s: State, todo: seq<Id>, id: Id)
    requires InboxInv(s) && Enabled(s, Recover(todo)) && id in s.store.log
    ensures var s' := Next(s, Recover(todo));
            InboxInv(s') && s'.vol.phase.Starting? && (ToReplay(s', id) || id in s'.store.turns)
  {
    RecoverKeeps(s, todo);
    RecoverReplays(s, todo, id);
    hide InboxInv, ToReplay, ReplaysAll;
  }

  lemma RecoverThenReduces(s: State, todo: seq<Id>, rest: seq<Step>, id: Id)
    requires InboxInv(s) && Enabled(s, Recover(todo)) && ValidRun(Next(s, Recover(todo)), rest)
    requires (forall k :: 0 <= k < |rest| ==> !rest[k].Crash?) && exists k :: 0 <= k < |rest| && rest[k].StartEnds?
    requires id in s.store.log
    ensures id in Exec(Next(s, Recover(todo)), rest).store.turns
  {
    hide *;
    Recovered(s, todo, id);
    StartReduces(Next(s, Recover(todo)), rest, id);
  }

  // Every message accepted before a start has been reduced by the time the start ends, whatever
  // comes in meanwhile, unless a crash ends the start first.
  lemma StartReducesAll(s: State, todo: seq<Id>, rest: seq<Step>)
    requires InboxInv(s) && Enabled(s, Recover(todo)) && ValidRun(Next(s, Recover(todo)), rest)
    requires (forall k :: 0 <= k < |rest| ==> !rest[k].Crash?) && exists k :: 0 <= k < |rest| && rest[k].StartEnds?
    ensures forall id :: id in s.store.log ==> id in Exec(Next(s, Recover(todo)), rest).store.turns
  {
    hide *;
    forall id | id in s.store.log ensures id in Exec(Next(s, Recover(todo)), rest).store.turns {
      RecoverThenReduces(s, todo, rest, id);
    }
  }
}
