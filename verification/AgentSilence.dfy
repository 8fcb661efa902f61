// When the scheduler falls silent: a service that is up has an armed timer or a live wake in its
// queue, and exactly which steps leave it with neither.
module AgentSilence {
  import opened Base
  import opened Agent
  import opened AgentWake

  ghost predicate SomeLive(s: State) { exists i :: LiveAt(s, i) }

  // Up, but no wake will ever fire unless something else reschedules.
  ghost predicate Silent(s: State) { s.vol.phase.Up? && s.vol.armed.None? && !SomeLive(s) }

  // The reduction of the head of the queue asks for a new schedule and gets it.
  predicate Reschedules(s: State, step: Step) {
    || step.StartEnds?
    || (&& step.Reduce? && !step.fault && s.vol.queue != []
        && var o := Handle(Pop(s), s.vol.queue[0], step.ch); o.Some? && o.value.reschedule)
  }

  predicate Unarmed(step: Step) { (step.StartEnds? || step.Reduce?) && !step.finite }

  // The live wake heads the queue and its reduction raises, in the handler or around it, or a fault
  // skips the schedule it asked for.
  ghost predicate LosesWake(s: State, step: Step) {
    && s.vol.phase.Up? && LiveAt(s, 0)
    && (|| step.ReduceFails?
        || (step.Reduce? && (step.fault || Handle(Pop(s), s.vol.queue[0], step.ch).None?)))
  }

  // A schedule leaves exactly what it arms: every queued wake is of an older generation.
  lemma ScheduleSpeaks(s: State, finite: bool)
    requires WakeInv(s) && s.vol.phase.Up?
    ensures Silent(Schedule(s, finite)) <==> !finite
  {
  }

  // What a processed event leaves of the timer and the queued wakes.
  lemma ProcessSpeaks(s: State, ev: Event, ch: Choice, leased: set<Id>, fault: bool, finite: bool)
    requires WakeInv(s) && !s.vol.phase.Down?
    requires ev.Wake? && ev.generation == s.vol.generation ==>
               && Unacted(s) && s.vol.armed == None
               && forall i :: 0 <= i < |s.vol.queue| && s.vol.queue[i].Wake? ==> s.vol.queue[i].generation != s.vol.generation
    ensures var o, s' := Handle(s, ev, ch), Process(s, ev, ch, leased, fault, finite);
            if o.Some? && o.value.reschedule && !fault
            then s'.vol.armed.Some? == finite && !SomeLive(s')
            else s'.vol.armed == s.vol.armed && (SomeLive(s') <==> SomeLive(s))
  {
    var s' := Process(s, ev, ch, leased, fault, finite);
    if Handle(s, ev, ch).Some? {
      HandleOnWakes(s, ev, ch);
      var o := Handle(s, ev, ch).value;
      var mid := Dispatch(Commit(s, o), leased);
      DispatchSpeaks(s, o, leased);
      hide Handle, Dispatch, Commit;
      if o.reschedule && !fault {
        assert s' == Schedule(mid, finite);
        assert forall i :: 0 <= i < |mid.vol.queue| && mid.vol.queue[i].Wake? ==> mid.vol.queue[i].generation <= mid.vol.generation;
      } else {
        assert forall i :: LiveAt(s', i) <==> LiveAt(s, i);
      }
    }
  }

  lemma DispatchSpeaks(s: State, o: Outcome, leased: set<Id>)
    requires o.store.sessions == s.store.sessions
    ensures var mid := Dispatch(Commit(s, o), leased);
            && mid.vol.queue == s.vol.queue && mid.vol.generation == s.vol.generation && mid.vol.armed == s.vol.armed
            && mid.vol.phase == s.vol.phase && mid.store.sessions == s.store.sessions
  {
  }

  lemma PopSpeaks(s: State)
    requires WakeInv(s) && s.vol.queue != []
    ensures Pop(s).vol.armed == s.vol.armed
    ensures LiveAt(s, 0) ==> !SomeLive(Pop(s)) && s.vol.armed.None?
    ensures !LiveAt(s, 0) ==> (SomeLive(Pop(s)) <==> SomeLive(s))
  {
    var p := Pop(s);
    assert forall i :: 0 <= i < |p.vol.queue| ==> p.vol.queue[i] == s.vol.queue[i + 1];
    assert forall i :: LiveAt(p, i) ==> LiveAt(s, i + 1);
    if i :| LiveAt(s, i) {
      if LiveAt(s, 0) {
        forall j ensures !LiveAt(p, j) { if LiveAt(p, j) { OneLiveWake(s, 0, j + 1); } }
        OneLiveWake(s, 0, 0);
      } else {
        assert LiveAt(p, i - 1);
      }
    }
  }

  lemma ReduceSpeaks(s: State, ch: Choice, leased: set<Id>, fault: bool, finite: bool)
    requires WakeInv(s) && Enabled(s, Reduce(ch, leased, fault, finite))
    ensures var step := Reduce(ch, leased, fault, finite);
            Silent(Next(s, step)) <==> if Reschedules(s, step) then !finite else Silent(s) || LosesWake(s, step)
  {
    var p, ev, step := Pop(s), s.vol.queue[0], Reduce(ch, leased, fault, finite);
    PopSpeaks(s);
    PopKeepsWakes(s);
    ProcessSpeaks(p, ev, ch, leased, fault, finite);
    ProcessKeepsWakes(p, ev, ch, leased, fault, finite);
    if LiveAt(s, 0) { LiveAsks(s, ch); }
    hide WakeInv, Process, Handle, SomeLive, ProcessEnabled;
  }

  // The handler of a live wake asks for a schedule, unless it raises.
  lemma LiveAsks(s: State, ch: Choice)
    requires s.vol.queue != [] && LiveAt(s, 0)
    ensures var o := Handle(Pop(s), s.vol.queue[0], ch); o.Some? ==> o.value.reschedule
  {
    if Handle(Pop(s), s.vol.queue[0], ch).Some? { HandleOnWakes(Pop(s), s.vol.queue[0], ch); }
  }

  lemma StartEndsSpeaks(s: State, ch: Choice, at: int, finite: bool)
    requires WakeInv(s) && Enabled(s, StartEnds(ch, at, finite))
    ensures Silent(Next(s, StartEnds(ch, at, finite))) <==> !finite
  {
    var ev := Reconcile(at);
    ProcessKeepsWakes(s, ev, ch, All(s, ev, ch), false, finite);
    var s' := Process(s, ev, ch, All(s, ev, ch), false, finite);
    hide WakeInv, Process, Handle, Silent;
    UpKeeps(s');
    ScheduleSpeaks(s'.(vol := s'.vol.(phase := Up)), finite);
  }

  // An event appended to the queue that is not a live wake.
  lemma AppendSpeaks(s: State, s': State, ev: Event)
    requires s'.vol.queue == s.vol.queue + [ev] && s'.vol.generation == s.vol.generation && s'.store.sessions == s.store.sessions
    ensures SomeLive(s') <==> SomeLive(s) || LiveAt(s', |s.vol.queue|)
  {
    assert forall i :: 0 <= i < |s.vol.queue| ==> s'.vol.queue[i] == s.vol.queue[i];
    if i :| LiveAt(s, i) { assert LiveAt(s', i); }
    if i :| LiveAt(s', i) { assert i < |s.vol.queue| ==> LiveAt(s, i); }
  }

  lemma IngressSpeaks(s: State, step: Step)
    requires WakeInv(s) && Enabled(s, step)
    requires step.Ingest? || step.AskReconcile? || step.TimerFires? || step.TaskReturns? || step.TaskExhausted?
    ensures Silent(Next(s, step)) <==> Silent(s)
  {
    var q, s' := s.vol.queue, Next(s, step);
    if s'.vol.queue != q {
      AppendSpeaks(s, s', s'.vol.queue[|q|]);
      if step.TimerFires? { assert LiveAt(s', |q|); } else { assert !s'.vol.queue[|q|].Wake?; }
    } else {
      assert forall i :: LiveAt(s', i) <==> LiveAt(s, i);
    }
  }

  lemma FailureSpeaks(s: State)
    requires WakeInv(s) && Enabled(s, ReduceFails)
    ensures Silent(Next(s, ReduceFails)) <==> Silent(s) || LosesWake(s, ReduceFails)
  {
    PopSpeaks(s);
    hide SomeLive, WakeInv;
  }

  lemma RestSpeaks(s: State, step: Step)
    requires WakeInv(s) && Enabled(s, step)
    requires step.TaskRetries? || step.TaskDies? || step.StopBegins? || step.DrainNext? || step.StopEnds? || step.Crash?
             || step.Recover? || step.ReplayNext? || step.DispatchNext?
    ensures Silent(Next(s, step)) <==> Silent(s) && !step.StopBegins? && !step.Crash?
  {
    var s' := Next(s, step);
    if step.DrainNext? || step.ReplayNext? {
      PhaseStays(s, step);
    } else if step.TaskRetries? || step.TaskDies? {
      assert forall i :: LiveAt(s', i) <==> LiveAt(s, i);
    }
  }

  lemma PhaseStays(s: State, step: Step)
    requires Enabled(s, step) && (step.DrainNext? || step.ReplayNext?)
    ensures !s.vol.phase.Up? && !Next(s, step).vol.phase.Up?
  {
    hide Handle, Unreduced;
  }

  // A step leaves the service silent exactly when it schedules an infinite delay, loses the live
  // wake, or finds it silent and neither schedules nor ends the session.
  ghost predicate SilentAfter(s: State, step: Step, before: bool) {
    if Reschedules(s, step) then Unarmed(step)
    else (before && !step.StopBegins? && !step.Crash?) || LosesWake(s, step)
  }

  lemma SilentNext(s: State, step: Step)
    requires WakeInv(s) && Enabled(s, step)
    ensures Silent(Next(s, step)) <==> SilentAfter(s, step, Silent(s))
  {
    hide WakeInv, Silent, Process, Handle, SomeLive, LiveAt;
    match step
    case Reduce(ch, leased, fault, finite) => ReduceSpeaks(s, ch, leased, fault, finite);
    case StartEnds(ch, at, finite) => StartEndsSpeaks(s, ch, at, finite);
    case ReduceFails => FailureSpeaks(s);
    case Ingest(_, _) => IngressSpeaks(s, step);
    case AskReconcile(_) => IngressSpeaks(s, step);
    case TimerFires(_) => IngressSpeaks(s, step);
    case TaskReturns(_, _, _) => IngressSpeaks(s, step);
    case TaskExhausted(_, _) => IngressSpeaks(s, step);
    case _ => RestSpeaks(s, step);
  }

  ghost predicate FallsSilent(s: State, run: seq<Step>, before: bool)
    requires ValidRun(s, run)
    decreases |run|
  {
    if run == [] then before else FallsSilent(Next(s, run[0]), run[1..], SilentAfter(s, run[0], before))
  }

  lemma {:induction false} SilentRun(s: State, run: seq<Step>)
    requires WakeInv(s) && ValidRun(s, run)
    ensures Silent(Exec(s, run)) <==> FallsSilent(s, run, Silent(s))
    decreases |run|
  {
    hide WakeInv, Silent, SilentAfter, Next, Enabled;
    if run != [] {
      WakeNext(s, run[0]);
      SilentNext(s, run[0]);
      SilentRun(Next(s, run[0]), run[1..]);
    }
  }

  // From the first start on, whatever the interleaving: while the service is up the timer is armed
  // or a live wake is queued, if and only if no step since the last schedule silenced it.
  lemma AwakeExactly(caps: Caps, run: seq<Step>)
    requires ValidRun(Init(caps), run) && Exec(Init(caps), run).vol.phase.Up?
    ensures var s := Exec(Init(caps), run);
            s.vol.armed.Some? || SomeLive(s) <==> !FallsSilent(Init(caps), run, false)
  {
    SilentRun(Init(caps), run);
  }

  // ---------------------------------------------------------------- a clean stop

  ghost predicate TaskFor(s: State, w: Id) { exists t :: t in s.vol.tasks && t.work == w }

  // What a stop leaves alone: no timer, no new schedule or session, no wake acted on, nothing said by
  // the human reduced and nothing dispatched.
  ghost predicate Standing(s: State, s': State) {
    && (s'.vol.phase.Stopping? || s'.vol.phase.Down?) && s'.vol.armed.None?
    && s'.store.sessions == s.store.sessions && s'.store.generation == s.store.generation
    && s'.acted == s.acted && s'.store.turns == s.store.turns
    && (forall m :: m in s.store.log ==> m in s'.store.log && s'.store.log[m] == s.store.log[m])
    && (forall t :: t in s'.vol.tasks ==> TaskFor(s, t.work))
  }

  // The tables a result may change while the service stops.
  lemma DrainStands(s: State, ch: Choice)
    requires s.vol.phase.Stopping? && s.vol.armed.None? && Enabled(s, DrainNext(ch))
    ensures Standing(s, Next(s, DrainNext(ch)))
  {
    var p := Pop(s);
    var ev := s.vol.queue[0];
    if IsShutdownReducible(ev) {
      ResultStands(s.store, ev, ch, p);
      hide Handle;
      assert Dispatch(Commit(p, Handle(p, ev, ch).value), {}).vol.tasks == s.vol.tasks;
    }
  }

  lemma ResultStands(d: Store, ev: Event, ch: Choice, s: State)
    requires IsShutdownReducible(ev) && s.store == d
    ensures var o := Handle(s, ev, ch);
            && o.Some? && !o.value.acted && o.value.store.log == d.log && o.value.store.turns == d.turns
            && o.value.store.sessions == d.sessions && o.value.store.generation == d.generation
  {
    hide AddEmbeddings, FailDuty, SatisfyDuty, SetStatus, Charge, Count, Hour, HandleHuman, HandleWake, HandleReconcile;
  }

  lemma StoppingNext(s: State, step: Step)
    requires (s.vol.phase.Stopping? || s.vol.phase.Down?) && s.vol.armed.None? && Enabled(s, step) && !step.Recover?
    ensures Standing(s, Next(s, step))
  {
    hide Process, Handle, Dispatch, Schedule, Unreduced, All, Lease;
    if step.DrainNext? {
      DrainStands(s, step.ch);
    } else if step.TaskRetries? {
      assert TaskFor(s, step.task.work);
    }
  }

  lemma StandsOn(a: State, b: State, c: State)
    requires Standing(a, b) && Standing(b, c)
    ensures Standing(a, c)
  {
  }

  lemma {:induction false} StoppedRun(s: State, run: seq<Step>)
    requires (s.vol.phase.Stopping? || s.vol.phase.Down?) && s.vol.armed.None? && ValidRun(s, run)
    requires forall i :: 0 <= i < |run| ==> !run[i].Recover?
    ensures Standing(s, Exec(s, run))
    decreases |run|
  {
    if run != [] {
      StoppingNext(s, run[0]);
      StoppedRun(Next(s, run[0]), run[1..]);
      hide Next, Enabled;
      StandsOn(s, Next(s, run[0]), Exec(s, run));
    }
  }

  // From the moment a stop begins until the next start, whatever tasks still return or clients still
  // send: results are all that is reduced.
  lemma ShutdownRun(s: State, run: seq<Step>)
    requires Enabled(s, StopBegins) && ValidRun(Next(s, StopBegins), run)
    requires forall i :: 0 <= i < |run| ==> !run[i].Recover?
    ensures Standing(s, Exec(Next(s, StopBegins), run))
  {
    var stopping := Next(s, StopBegins);
    StoppedRun(stopping, run);
    StandsOn(s, stopping, Exec(stopping, run));
  }
}
