// What becomes of a pending obligation: exactly when it is stranded, and exactly when a settled
// one can change again.
module AgentOutlook {
  import opened Base
  import opened Agent
  import opened AgentWork
  import opened AgentInbox
  import opened AgentDuty

  ghost predicate InQueue(q: seq<Event>, w: Id) { exists i :: 0 <= i < |q| && Carries(q[i], w) }

  ghost predicate Owed(s: State, w: Id) {
    w in s.store.obligations && s.store.obligations[w].status.DUTY_PENDING?
  }

  ghost predicate GivenUp(s: State, w: Id) { w in s.store.work && s.store.work[w].status.FAILED_TERMINAL? }

  // The worker gave up, and the report that would fail the obligation is still queued.
  ghost predicate AtRisk(s: State, w: Id) { Owed(s, w) && GivenUp(s, w) && InQueue(s.vol.queue, w) }

  // The worker gave up and no report will ever come: the obligation stays pending for good.
  ghost predicate Stranded(s: State, w: Id) { Owed(s, w) && GivenUp(s, w) && !InQueue(s.vol.queue, w) }

  // The steps that lose the report of item w: a crash, and a reduction of that report that raised.
  ghost predicate Loses(s: State, step: Step, w: Id) {
    step.Crash? || (step.ReduceFails? && s.vol.queue != [] && Carries(s.vol.queue[0], w))
  }

  // A pending obligation always has work to come, a report to come, or is stranded.
  lemma Outlook(s: State, w: Id)
    requires Inv(s) && Owed(s, w)
    ensures w in s.store.work
    ensures s.store.work[w].status in {PENDING, RUNNING} || AtRisk(s, w) || Stranded(s, w)
  {
    assert DutyOk(s.store, s.forged, w);
  }

  // ---------------------------------------------------------------- frames

  // The step reduces a generative result of item w.
  ghost predicate Reduces(s: State, step: Step, w: Id) {
    (step.Reduce? || step.DrainNext?) && s.vol.queue != [] && Carries(s.vol.queue[0], w)
  }

  // A result touches the obligation of its own item only.
  lemma ResultOnDuty(d: Store, v: Id, cycle: Id, body: Body, at: int, ch: Choice, w: Id)
    requires w in d.obligations && v != w
    ensures var d' := HandleLlmResult(d, v, cycle, body, at, ch).store;
            w in d'.obligations && d'.obligations[w] == d.obligations[w]
  {
    if v in d.work {
      var done := d.(work := SetStatus(d.work, v, COMPLETED));
      assert FinishMandatory(done, v, cycle, body.Speak?, at, ch).store.obligations in
               {FailDuty(d.obligations, v), SatisfyDuty(d.obligations, v, ch.msg)};
      assert FinishReactive(done, cycle, body.Speak?, at, ch).store.obligations == d.obligations;
      assert FinishProactive(done, cycle, body.Speak?, at, ch).store.obligations == d.obligations;
    }
  }

  lemma HandleOnDuty(s: State, ev: Event, ch: Choice, w: Id)
    requires Fresh(s.store, ch) && Handle(s, ev, ch).Some? && w in s.store.obligations && w in s.store.work
    requires !(ev.LlmResult? && ev.work == w)
    ensures var d' := Handle(s, ev, ch).value.store;
            w in d'.obligations && d'.obligations[w] == s.store.obligations[w]
  {
    hide HandleLlmResult;
    match ev
    case LlmResult(v, cycle, body, at) => ResultOnDuty(s.store, v, cycle, body, at, ch, w);
    case Human(_, _) =>
    case Wake(_, _, _) =>
    case EmbeddingResult(_, _) =>
    case Reconcile(_) =>
  }

  lemma ProcessOnDuty(s: State, ev: Event, ch: Choice, leased: set<Id>, fault: bool, finite: bool, w: Id)
    requires Fresh(s.store, ch) && w in s.store.obligations && w in s.store.work && !(ev.LlmResult? && ev.work == w)
    ensures var s' := Process(s, ev, ch, leased, fault, finite);
            w in s'.store.obligations && s'.store.obligations[w] == s.store.obligations[w]
  {
    if Handle(s, ev, ch).Some? { HandleOnDuty(s, ev, ch, w); }
  }

  lemma HasWork(s: State, w: Id)
    requires Inv(s) && w in s.store.obligations
    ensures w in s.store.work
  {
  }

  lemma ReplaysMessages(s: State)
    requires Inv(s) && s.vol.phase.Starting? && s.vol.phase.replay > 0
    ensures s.vol.queue != [] && s.vol.queue[0].Human?
  {
  }

  // Only the reduction of its own result touches an obligation.
  lemma ObligationFrame(s: State, step: Step, w: Id)
    requires Inv(s) && Enabled(s, step) && w in s.store.obligations && !Reduces(s, step, w)
    ensures w in Next(s, step).store.obligations && Next(s, step).store.obligations[w] == s.store.obligations[w]
  {
    hide Process, Handle, WorkInv, InboxInv, DutyInv, Unreduced;
    HasWork(s, w);
    match step
    case Reduce(ch, leased, fault, finite) => ProcessOnDuty(Pop(s), s.vol.queue[0], ch, leased, fault, finite, w);
    case DrainNext(ch) =>
      if IsShutdownReducible(s.vol.queue[0]) { ProcessOnDuty(Pop(s), s.vol.queue[0], ch, {}, true, false, w); }
    case ReplayNext(ch, finite) =>
      ReplaysMessages(s);
      ProcessOnDuty(PopReplay(s), s.vol.queue[0], ch, All(PopReplay(s), s.vol.queue[0], ch), false, finite, w);
    case StartEnds(ch, at, finite) =>
      ProcessOnDuty(s, Reconcile(at), ch, All(s, Reconcile(at), ch), false, finite, w);
    case _ => OtherOnTables(s, step);
  }

  // ---------------------------------------------------------------- settled obligations

  // A settled obligation is never touched again, unless it failed on a returned body that held
  // the reserved key: then its item is not terminal and may be run again.
  lemma SettledNext(s: State, step: Step, w: Id)
    requires Inv(s) && Enabled(s, step) && w in s.store.obligations && !s.store.obligations[w].status.DUTY_PENDING?
    requires s.store.obligations[w].status.SATISFIED? || w !in s.forged
    ensures w in Next(s, step).store.obligations && Next(s, step).store.obligations[w] == s.store.obligations[w]
  {
    if Reduces(s, step, w) {
      assert ResultOk(s, s.vol.queue[0]) && DutyOk(s.store, s.forged, w);
      var ev := s.vol.queue[0];
      assert ev.LlmResult? && ev.body.Sentinel? && GivenUp(s, w);
      ReportOnDuty(s, step, w);
    } else {
      ObligationFrame(s, step, w);
    }
  }

  // Reducing the error report of an exhausted item fails its obligation, and only that.
  lemma ReportOnDuty(s: State, step: Step, w: Id)
    requires Inv(s) && Enabled(s, step) && Reduces(s, step, w) && GivenUp(s, w) && w in s.store.obligations
    ensures w in Next(s, step).store.obligations
    ensures Next(s, step).store.obligations[w] == s.store.obligations[w].(status := FAILED)
  {
    assert ResultOk(s, s.vol.queue[0]);
    var ev, p := s.vol.queue[0], Pop(s);
    var ch := step.ch;
    assert HandleLlmResult(p.store, w, ev.cycle, ev.body, ev.at, ch).store == Fail(p.store, w);
    assert Handle(p, ev, ch) == Some(HandleLlmResult(p.store, w, ev.cycle, ev.body, ev.at, ch));
  }

  // ---------------------------------------------------------------- stranding, exactly

  // What one step does to the queue.
  lemma QueueShape(s: State, step: Step)
    requires Inv(s) && Enabled(s, step)
    ensures var q, q' := s.vol.queue, Next(s, step).vol.queue;
            || (step.Crash? && q' == [])
            || ((step.StopEnds? || step.Recover?) && q == [])
            || ((step.Reduce? || step.ReduceFails? || step.DrainNext? || (step.ReplayNext? && q[0].Human?)) && q' == q[1..])
            || (q <= q' && !step.Crash? && !step.ReduceFails? && !step.Reduce? && !step.DrainNext?)
  {
    match step
    case Reduce(ch, leased, fault, finite) => ProcessOnInbox(Pop(s), s.vol.queue[0], ch, leased, fault, finite);
    case DrainNext(ch) => ProcessOnInbox(Pop(s), s.vol.queue[0], ch, {}, true, false);
    case ReplayNext(ch, finite) =>
      ProcessOnInbox(PopReplay(s), s.vol.queue[0], ch, All(PopReplay(s), s.vol.queue[0], ch), false, finite);
    case StartEnds(ch, at, finite) =>
      ProcessOnInbox(s, Reconcile(at), ch, All(s, Reconcile(at), ch), false, finite);
    case _ =>
  }

  lemma QueueNext(s: State, step: Step, w: Id)
    requires Inv(s) && Enabled(s, step) && InQueue(s.vol.queue, w)
    requires !Reduces(s, step, w) && !Loses(s, step, w)
    ensures InQueue(Next(s, step).vol.queue, w)
  {
    var i :| 0 <= i < |s.vol.queue| && Carries(s.vol.queue[i], w);
    QueueShape(s, step);
    var q, q' := s.vol.queue, Next(s, step).vol.queue;
    if q' == q[1..] {
      assert i > 0 && q'[i - 1] == q[i];
    } else {
      assert q'[i] == q[i];
    }
  }

  // Only exhausting the attempts gives an item up; a fresh item is never given up.
  lemma ProcessGivesUpNothing(s: State, ev: Event, ch: Choice, leased: set<Id>, fault: bool, finite: bool, w: Id)
    requires ProcessEnabled(s, ev, ch, leased, fault) && !GivenUp(s, w)
    ensures !GivenUp(Process(s, ev, ch, leased, fault, finite), w)
  {
    if Handle(s, ev, ch).Some? { ProcessOnWork(s, ev, ch, leased, fault, finite); }
  }

  lemma GivenUpNext(s: State, step: Step, w: Id)
    requires Inv(s) && Enabled(s, step) && !GivenUp(s, w)
    requires !(step.TaskExhausted? && step.task.work == w)
    ensures !GivenUp(Next(s, step), w)
  {
    match step
    case Reduce(ch, leased, fault, finite) => ProcessGivesUpNothing(Pop(s), s.vol.queue[0], ch, leased, fault, finite, w);
    case DrainNext(ch) =>
      if IsShutdownReducible(s.vol.queue[0]) { ProcessGivesUpNothing(Pop(s), s.vol.queue[0], ch, {}, true, false, w); }
    case ReplayNext(ch, finite) =>
      AllEnabled(PopReplay(s), s.vol.queue[0], ch);
      ProcessGivesUpNothing(PopReplay(s), s.vol.queue[0], ch, All(PopReplay(s), s.vol.queue[0], ch), false, finite, w);
    case StartEnds(ch, at, finite) =>
      AllEnabled(s, Reconcile(at), ch);
      ProcessGivesUpNothing(s, Reconcile(at), ch, All(s, Reconcile(at), ch), false, finite, w);
    case _ =>
  }

  // No result of a given-up item can still appear: its task is gone.
  lemma NeverQueued(s: State, step: Step, w: Id)
    requires Inv(s) && Enabled(s, step) && GivenUp(s, w) && !InQueue(s.vol.queue, w)
    ensures !InQueue(Next(s, step).vol.queue, w)
  {
    QueueShape(s, step);
    match step
    case TaskReturns(t, _, _) => assert TaskOk(s, t);
    case TaskExhausted(t, _) => assert TaskOk(s, t);
    case Recover(_) => UnreducedAreHuman(s.store.order, s.store.log);
    case StartEnds(ch, at, finite) =>
      ProcessOnInbox(s, Reconcile(at), ch, All(s, Reconcile(at), ch), false, finite);
    case _ =>
  }

  lemma LostIsGone(s: State, step: Step, w: Id)
    requires Inv(s) && Enabled(s, step) && Loses(s, step, w)
    ensures !InQueue(Next(s, step).vol.queue, w)
  {
    if step.ReduceFails? {
      assert Carries(s.vol.queue[0], w);
      forall i | 0 <= i < |s.vol.queue[1..]| ensures !Carries(s.vol.queue[1..][i], w) {
        assert s.vol.queue[1..][i] == s.vol.queue[i + 1];
      }
    }
  }

  lemma JustGivenUp(s: State, step: Step, w: Id)
    requires Inv(s) && Enabled(s, step) && w in s.store.obligations
    requires step.TaskExhausted? && step.task.work == w
    ensures InQueue(Next(s, step).vol.queue, w)
  {
    assert TaskOk(s, step.task);
    var q' := Next(s, step).vol.queue;
    assert Carries(q'[|q'| - 1], w);
  }

  // A step strands an obligation exactly when it loses the report of one at risk; nothing ever
  // rescues a stranded one, not even a restart, which requeues RUNNING items only.
  lemma StrandedNext(s: State, step: Step, w: Id)
    requires Inv(s) && Enabled(s, step)
    ensures Stranded(Next(s, step), w) <==> Stranded(s, w) || (AtRisk(s, w) && Loses(s, step, w))
  {
    hide Next, InboxInv;
    InvNext(s, step);
    var s' := Next(s, step);
    QueueShape(s, step);
    if w !in s.store.obligations {
      if w in s.store.work { RowNext(s, step, w); } else { GivenUpNext(s, step, w); }
    } else if Reduces(s, step, w) {
      if GivenUp(s, w) { ReportOnDuty(s, step, w); } else { GivenUpNext(s, step, w); }
    } else {
      ObligationFrame(s, step, w);
      RowNext(s, step, w);
      if GivenUp(s, w) {
        if InQueue(s.vol.queue, w) && !Loses(s, step, w) { QueueNext(s, step, w); }
        if !InQueue(s.vol.queue, w) { NeverQueued(s, step, w); }
        if InQueue(s.vol.queue, w) && Loses(s, step, w) { LostIsGone(s, step, w); }
      } else if GivenUp(s', w) {
        if !(step.TaskExhausted? && step.task.work == w) { GivenUpNext(s, step, w); }
        JustGivenUp(s, step, w);
      }
    }
  }

  // Some step of the run loses the report of an obligation at risk.
  ghost predicate Lost(s: State, run: seq<Step>, w: Id)
    requires ValidRun(s, run)
    decreases |run|
  {
    run != [] && ((AtRisk(s, w) && Loses(s, run[0], w)) || Lost(Next(s, run[0]), run[1..], w))
  }

  // Over whole runs: an obligation ends stranded if and only if a crash or a failed reduction
  // hit the window between giving its item up and reducing the report.
  lemma {:induction false} StrandedRun(s: State, run: seq<Step>, w: Id)
    requires Inv(s) && ValidRun(s, run)
    ensures Stranded(Exec(s, run), w) <==> Stranded(s, w) || Lost(s, run, w)
    decreases |run|
  {
    if run != [] {
      InvNext(s, run[0]);
      StrandedNext(s, run[0], w);
      StrandedRun(Next(s, run[0]), run[1..], w);
    }
  }

  // From the first start on, a pending obligation has work or a report to come unless some step
  // of the run lost its report; and then it has neither, ever.
  lemma EveryObligationHasAnOutlook(caps: Caps, run: seq<Step>, w: Id)
    requires ValidRun(Init(caps), run) && Owed(Exec(Init(caps), run), w)
    ensures var s := Exec(Init(caps), run);
            w in s.store.work &&
            (Lost(Init(caps), run, w) <==> !(s.store.work[w].status in {PENDING, RUNNING} || AtRisk(s, w)))
  {
    InvRun(Init(caps), run);
    StrandedRun(Init(caps), run, w);
    Outlook(Exec(Init(caps), run), w);
  }
}
