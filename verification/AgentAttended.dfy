// Who looks after a leased item: it has a task or a queued result, and exactly which steps leave it
// with neither until the next start.
module AgentAttended {
  import opened Base
  import opened Agent
  import opened AgentWork
  import opened AgentInbox
  import opened AgentDuty
  import opened AgentOutlook

  ghost predicate HasTask(s: State, w: Id) { exists t :: t in s.vol.tasks && t.work == w }

  ghost predicate Running(s: State, w: Id) { w in s.store.work && s.store.work[w].status.RUNNING? }

  // Leased, but nothing in memory will ever report on it.
  ghost predicate Orphaned(s: State, w: Id) { Running(s, w) && !HasTask(s, w) && !InQueue(s.vol.queue, w) }

  // The steps that orphan a leased item: a crash, its task cancelled before it reported, its result
  // lost by a reduction that raised, or a returned body holding the reserved key, whose reduction
  // reports a failure but does not end the item.
  ghost predicate Abandons(s: State, step: Step, w: Id) {
    && Running(s, w)
    && match step
       case Crash => true
       case TaskDies(t) => t.work == w
       case ReduceFails => s.vol.queue != [] && Carries(s.vol.queue[0], w)
       case _ => Reduces(s, step, w) && s.vol.queue[0].LlmResult? && s.vol.queue[0].body.Sentinel?
  }

  lemma QueueHead(q: seq<Event>, w: Id)
    requires q != []
    ensures InQueue(q, w) <==> Carries(q[0], w) || InQueue(q[1..], w)
  {
    if InQueue(q[1..], w) {
      var i :| 0 <= i < |q[1..]| && Carries(q[1..][i], w);
      assert Carries(q[i + 1], w);
    }
    if i :| 0 <= i < |q| && Carries(q[i], w) {
      if i > 0 { assert Carries(q[1..][i - 1], w); }
    }
  }

  lemma QueueTail(q: seq<Event>, ev: Event, w: Id)
    ensures InQueue(q + [ev], w) <==> InQueue(q, w) || Carries(ev, w)
  {
    if InQueue(q, w) {
      var i :| 0 <= i < |q| && Carries(q[i], w);
      assert Carries((q + [ev])[i], w);
    }
    assert (q + [ev])[|q|] == ev;
  }

  // An item whose result heads the queue has no task and no other result.
  lemma OneCarrier(s: State, w: Id)
    requires WorkInv(s) && s.vol.queue != [] && Carries(s.vol.queue[0], w)
    ensures !HasTask(s, w) && !InQueue(s.vol.queue[1..], w)
    ensures Running(s, w) ==>
              (Completes(s.store, s.vol.queue[0], w) <==> !(s.vol.queue[0].LlmResult? && s.vol.queue[0].body.Sentinel?))
  {
    var q := s.vol.queue;
    assert ResultOk(s, q[0]);
    forall i | 0 <= i < |q[1..]| ensures !Carries(q[1..][i], w) { assert q[1..][i] == q[i + 1]; }
  }

  // Processing an event leases fresh items only, and ends at most the one it reports on.
  lemma ProcessOrphans(s: State, ev: Event, ch: Choice, leased: set<Id>, fault: bool, finite: bool, w: Id)
    requires ProcessEnabled(s, ev, ch, leased, fault)
    ensures Orphaned(Process(s, ev, ch, leased, fault, finite), w) <==> Orphaned(s, w) && !Completes(s.store, ev, w)
  {
    if Handle(s, ev, ch).Some? {
      ProcessOnWork(s, ev, ch, leased, fault, finite);
      var o, s' := Handle(s, ev, ch).value, Process(s, ev, ch, leased, fault, finite);
      hide Process, Handle, ProcessEnabled;
      EffectOrphans(s, s', ev, ch, o, leased, w);
    }
  }

  lemma EffectOrphans(s: State, s': State, ev: Event, ch: Choice, o: Outcome, leased: set<Id>, w: Id)
    requires ProcessEffect(s, s', ev, ch, o, leased)
    ensures Orphaned(s', w) <==> Orphaned(s, w) && !Completes(s.store, ev, w)
  {
    if HasTask(s, w) {
      var t :| t in s.vol.tasks && t.work == w;
      assert t in s'.vol.tasks;
    }
    if w in leased {
      assert Task(w, Leased(o.store.work[w]), 1) in s'.vol.tasks;
    }
  }

  lemma PopOrphans(s: State, w: Id)
    requires s.vol.queue != []
    ensures Orphaned(Pop(s), w) <==> Running(s, w) && !HasTask(s, w) && !InQueue(s.vol.queue[1..], w)
  {
  }

  // Reducing the head of the queue.
  lemma ReduceOrphans(s: State, ch: Choice, leased: set<Id>, fault: bool, finite: bool, w: Id)
    requires WorkInv(s) && s.vol.queue != [] && ProcessEnabled(Pop(s), s.vol.queue[0], ch, leased, fault)
    ensures Orphaned(Process(Pop(s), s.vol.queue[0], ch, leased, fault, finite), w)
            <==> Orphaned(s, w) || (Running(s, w) && Carries(s.vol.queue[0], w)
                                    && s.vol.queue[0].LlmResult? && s.vol.queue[0].body.Sentinel?)
  {
    ProcessOrphans(Pop(s), s.vol.queue[0], ch, leased, fault, finite, w);
    PopOrphans(s, w);
    QueueHead(s.vol.queue, w);
    if Carries(s.vol.queue[0], w) { OneCarrier(s, w); }
    hide Process, ProcessEnabled, WorkInv, InQueue, HasTask;
  }

  lemma DrainOrphans(s: State, ch: Choice, w: Id)
    requires WorkInv(s) && Enabled(s, DrainNext(ch))
    ensures Orphaned(Next(s, DrainNext(ch)), w) <==> Orphaned(s, w) || Abandons(s, DrainNext(ch), w)
  {
    hide WorkInv;
    if IsShutdownReducible(s.vol.queue[0]) {
      ReduceOrphans(s, ch, {}, true, false, w);
    } else {
      PopOrphans(s, w);
      QueueHead(s.vol.queue, w);
    }
  }

  lemma ReplayOrphans(s: State, ch: Choice, finite: bool, w: Id)
    requires Inv(s) && Enabled(s, ReplayNext(ch, finite))
    ensures Orphaned(Next(s, ReplayNext(ch, finite)), w) <==> Orphaned(s, w)
  {
    ReplaysMessages(s);
    hide Inv;
    var ev, s' := s.vol.queue[0], PopReplay(s);
    AllEnabled(s', ev, ch);
    ProcessOrphans(s', ev, ch, All(s', ev, ch), false, finite, w);
    QueueHead(s.vol.queue, w);
    hide Process, Handle;
    assert Orphaned(s', w) <==> Orphaned(s, w);
  }

  lemma StartEndsOrphans(s: State, ch: Choice, at: int, finite: bool, w: Id)
    requires Enabled(s, StartEnds(ch, at, finite))
    ensures Orphaned(Next(s, StartEnds(ch, at, finite)), w) <==> Orphaned(s, w)
  {
    var ev := Reconcile(at);
    AllEnabled(s, ev, ch);
    ProcessOrphans(s, ev, ch, All(s, ev, ch), false, finite, w);
    hide Process, Handle;
  }

  // A task that retries, returns or gives up hands its item on; one that dies does not.
  lemma TaskOrphans(s: State, step: Step, w: Id)
    requires WorkInv(s) && Enabled(s, step)
    requires step.TaskReturns? || step.TaskRetries? || step.TaskExhausted? || step.TaskDies?
    ensures Orphaned(Next(s, step), w) <==> Orphaned(s, w) || Abandons(s, step, w)
  {
    var t, s' := step.task, Next(s, step);
    assert TaskOk(s, t);
    forall body, at { QueueTail(s.vol.queue, EventOf(t, body, at), w); }
    if t.work == w {
      assert HasTask(s, w) && !InQueue(s.vol.queue, w);
      if step.TaskRetries? { assert Task(w, Leased(s.store.work[w]), t.attempt + 1) in s'.vol.tasks; }
    } else {
      if HasTask(s, w) {
        var u :| u in s.vol.tasks && u.work == w;
        assert u in s'.vol.tasks;
      }
    }
  }

  lemma DispatchOrphans(s: State, w: Id)
    requires WorkInv(s) && Enabled(s, DispatchNext)
    ensures Orphaned(Next(s, DispatchNext), w) <==> Orphaned(s, w)
  {
    var s', first := Next(s, DispatchNext), s.vol.phase.todo[0];
    assert first in s.store.work && s.store.work[first].status.PENDING?;
    if w == first { assert Task(w, Leased(s.store.work[w]), 1) in s'.vol.tasks; }
    if HasTask(s, w) {
      var t :| t in s.vol.tasks && t.work == w;
      assert t in s'.vol.tasks;
    }
  }

  lemma IngressOrphans(s: State, step: Step, w: Id)
    requires Enabled(s, step) && (step.Ingest? || step.AskReconcile? || step.TimerFires?)
    ensures Orphaned(Next(s, step), w) <==> Orphaned(s, w)
  {
    var q' := Next(s, step).vol.queue;
    if q' != s.vol.queue {
      QueueTail(s.vol.queue, q'[|q'| - 1], w);
      assert q' == s.vol.queue + [q'[|q'| - 1]];
    }
  }

  lemma FailureOrphans(s: State, w: Id)
    requires WorkInv(s) && Enabled(s, ReduceFails)
    ensures Orphaned(Next(s, ReduceFails), w) <==> Orphaned(s, w) || Abandons(s, ReduceFails, w)
  {
    PopOrphans(s, w);
    QueueHead(s.vol.queue, w);
    if Carries(s.vol.queue[0], w) { OneCarrier(s, w); }
  }

  // Exactly those steps orphan a leased item, and only a start takes an orphan up again.
  lemma OrphanNext(s: State, step: Step, w: Id)
    requires Inv(s) && Enabled(s, step)
    ensures Orphaned(Next(s, step), w) <==> (Orphaned(s, w) && !step.Recover?) || Abandons(s, step, w)
  {
    assert WorkInv(s);
    hide WorkInv, InboxInv, DutyInv, Process, Handle, InQueue, HasTask;
    match step
    case Reduce(ch, leased, fault, finite) => ReduceOrphans(s, ch, leased, fault, finite, w);
    case DrainNext(ch) => DrainOrphans(s, ch, w);
    case ReduceFails => FailureOrphans(s, w);
    case ReplayNext(ch, finite) => ReplayOrphans(s, ch, finite, w);
    case StartEnds(ch, at, finite) => StartEndsOrphans(s, ch, at, finite, w);
    case DispatchNext => DispatchOrphans(s, w);
    case TaskReturns(_, _, _) => TaskOrphans(s, step, w);
    case TaskRetries(_) => TaskOrphans(s, step, w);
    case TaskExhausted(_, _) => TaskOrphans(s, step, w);
    case TaskDies(_) => TaskOrphans(s, step, w);
    case _ => RestOrphans(s, step, w);
  }

  lemma RestOrphans(s: State, step: Step, w: Id)
    requires WorkInv(s) && Enabled(s, step)
    requires step.Ingest? || step.AskReconcile? || step.TimerFires? || step.StopBegins? || step.StopEnds? || step.Crash? || step.Recover?
    ensures Orphaned(Next(s, step), w) <==> (Orphaned(s, w) && !step.Recover?) || Abandons(s, step, w)
  {
    if step.Ingest? || step.AskReconcile? || step.TimerFires? { IngressOrphans(s, step, w); }
  }

  // Some step of the run abandons item w, and no start comes after it; `before` says whether the
  // run begins with an orphan.
  ghost predicate LeftAlone(s: State, run: seq<Step>, w: Id, before: bool)
    requires ValidRun(s, run)
    decreases |run|
  {
    if run == [] then before
    else LeftAlone(Next(s, run[0]), run[1..], w, (before && !run[0].Recover?) || Abandons(s, run[0], w))
  }

  lemma {:induction false} OrphanRun(s: State, run: seq<Step>, w: Id)
    requires Inv(s) && ValidRun(s, run)
    ensures Orphaned(Exec(s, run), w) <==> LeftAlone(s, run, w, Orphaned(s, w))
    decreases |run|
  {
    hide Inv, Next, Enabled, Orphaned, Abandons;
    if run != [] {
      InvNext(s, run[0]);
      OrphanNext(s, run[0], w);
      OrphanRun(Next(s, run[0]), run[1..], w);
    }
  }

  // From the first start on, whatever the interleaving: a RUNNING item has a task or a queued result
  // if and only if no step since the last start abandoned it.
  lemma EveryLeasedItemIsAttended(caps: Caps, run: seq<Step>, w: Id)
    requires ValidRun(Init(caps), run) && Running(Exec(Init(caps), run), w)
    ensures var s := Exec(Init(caps), run);
            HasTask(s, w) || InQueue(s.vol.queue, w) <==> !LeftAlone(Init(caps), run, w, false)
  {
    OrphanRun(Init(caps), run, w);
  }
}
