// Wake scheduling: one live wake at a time, one firing per generation, and the wakes acted on
// carry strictly increasing generations, across crashes and restarts.
module AgentWake {
  import opened Base
  import opened Agent
  import opened AgentWork

  ghost predicate Unacted(s: State) { forall k :: 0 <= k < |s.acted| ==> s.acted[k] < s.vol.generation }

  ghost predicate Increasing(a: seq<nat>) { forall i, j :: 0 <= i < j < |a| ==> a[i] < a[j] }

  ghost predicate WakeInv(s: State) {
    && (s.vol.phase.Down? ==> s.vol == Nothing())
    && (!s.vol.phase.Down? ==> s.vol.generation == s.store.generation)
    && (forall i :: 0 <= i < |s.vol.queue| && s.vol.queue[i].Wake? ==>
          s.vol.queue[i].session == s.store.sessions && s.vol.queue[i].generation <= s.vol.generation)
    && (forall i, j :: 0 <= i < j < |s.vol.queue| && s.vol.queue[i].Wake? && s.vol.queue[j].Wake? ==>
          s.vol.queue[i].generation != s.vol.queue[j].generation)
    && (s.vol.armed.Some? ==>
          && s.vol.armed.value == s.vol.generation && Unacted(s)
          && (forall i :: 0 <= i < |s.vol.queue| && s.vol.queue[i].Wake? ==> s.vol.queue[i].generation != s.vol.generation))
    && (forall i :: 0 <= i < |s.vol.queue| && s.vol.queue[i].Wake? && s.vol.queue[i].generation == s.vol.generation ==> Unacted(s))
    && Increasing(s.acted) && (forall k :: 0 <= k < |s.acted| ==> s.acted[k] <= s.store.generation)
  }

  // A wake that would be acted on if reduced now.
  ghost predicate LiveAt(s: State, i: int) {
    0 <= i < |s.vol.queue| && s.vol.queue[i].Wake? && s.vol.queue[i].generation == s.vol.generation
    && s.vol.queue[i].session == s.store.sessions
  }

  // Armed timer and queue together never hold two live wakes.
  lemma OneLiveWake(s: State, i: int, j: int)
    requires WakeInv(s) && LiveAt(s, i)
    ensures s.vol.armed == None
    ensures LiveAt(s, j) ==> i == j
  {
  }

  lemma HandleOnWakes(s: State, ev: Event, ch: Choice)
    requires Handle(s, ev, ch).Some?
    ensures var o := Handle(s, ev, ch).value;
            && o.store.generation == s.store.generation && o.store.sessions == s.store.sessions
            && (o.acted ==> ev.Wake? && ev.generation == s.vol.generation && ev.session == s.store.sessions && o.reschedule)
            && (ev.Wake? && ev.generation == s.vol.generation && ev.session == s.store.sessions ==> o.acted)
  {
    hide HandleLlmResult, CycleTaken;
    if ev.LlmResult? { LlmOnWakes(s.store, ev.work, ev.cycle, ev.body, ev.at, ch); }
  }

  lemma LlmOnWakes(d: Store, w: Id, cycle: Id, body: Body, at: int, ch: Choice)
    ensures var o := HandleLlmResult(d, w, cycle, body, at, ch);
            o.store.generation == d.generation && o.store.sessions == d.sessions && !o.acted
  {
    if w in d.work {
      var done := d.(work := SetStatus(d.work, w, COMPLETED));
      FinishOnWakes(done, w, cycle, body.Speak?, at, ch);
      hide FinishMandatory, FinishReactive, FinishProactive;
    }
  }

  lemma FinishOnWakes(d: Store, w: Id, cycle: Id, speak: bool, at: int, ch: Choice)
    requires w in d.work
    ensures var o := FinishMandatory(d, w, cycle, speak, at, ch);
            o.store.generation == d.generation && o.store.sessions == d.sessions && !o.acted
    ensures var o := FinishReactive(d, cycle, speak, at, ch);
            o.store.generation == d.generation && o.store.sessions == d.sessions && !o.acted
    ensures var o := FinishProactive(d, cycle, speak, at, ch);
            o.store.generation == d.generation && o.store.sessions == d.sessions && !o.acted
  {
  }

  lemma ScheduleKeeps(s: State, finite: bool)
    requires WakeInv(s) && !s.vol.phase.Down?
    ensures WakeInv(Schedule(s, finite)) && Unacted(Schedule(s, finite))
  {
  }

  lemma PopKeepsWakes(s: State)
    requires WakeInv(s) && s.vol.queue != []
    ensures WakeInv(Pop(s))
    ensures s.vol.queue[0].Wake? && s.vol.queue[0].generation == s.vol.generation ==>
              && Unacted(s) && s.vol.armed == None
              && forall i :: 0 <= i < |Pop(s).vol.queue| && Pop(s).vol.queue[i].Wake? ==> Pop(s).vol.queue[i].generation != s.vol.generation
  {
    assert forall i :: 0 <= i < |s.vol.queue[1..]| ==> s.vol.queue[1..][i] == s.vol.queue[i + 1];
  }

  lemma ProcessKeepsWakes(s: State, ev: Event, ch: Choice, leased: set<Id>, fault: bool, finite: bool)
    requires WakeInv(s) && !s.vol.phase.Down?
    requires ev.Wake? && ev.generation == s.vol.generation ==>
               && Unacted(s) && s.vol.armed == None
               && forall i :: 0 <= i < |s.vol.queue| && s.vol.queue[i].Wake? ==> s.vol.queue[i].generation != s.vol.generation
    ensures WakeInv(Process(s, ev, ch, leased, fault, finite))
    ensures Process(s, ev, ch, leased, fault, finite).vol.phase == s.vol.phase
    ensures s.acted <= Process(s, ev, ch, leased, fault, finite).acted
    ensures Process(s, ev, ch, leased, fault, finite).store.sessions == s.store.sessions
  {
    if Handle(s, ev, ch).Some? {
      HandleOnWakes(s, ev, ch);
      var o := Handle(s, ev, ch).value;
      var mid := Dispatch(Commit(s, o), leased);
      assert mid.vol.queue == s.vol.queue && mid.vol.generation == s.vol.generation && mid.vol.armed == s.vol.armed;
      assert mid.store.generation == s.store.generation && mid.store.sessions == s.store.sessions;
      assert WakeInv(mid);
      if o.reschedule && !fault { ScheduleKeeps(mid, finite); }
    }
  }

  // Steps that touch neither timer, nor generations, nor queued wakes.
  lemma OtherKeepsWakes(s: State, s': State)
    requires WakeInv(s) && s'.store.generation == s.store.generation && s'.store.sessions == s.store.sessions
    requires s'.acted == s.acted && !s.vol.phase.Down?
    requires s'.vol == Nothing() || (!s'.vol.phase.Down? && s'.vol.generation == s.vol.generation && s'.vol.armed in {s.vol.armed, None})
    requires || s'.vol == Nothing() || s'.vol.queue == s.vol.queue
             || (exists ev: Event :: !ev.Wake? && s'.vol.queue == s.vol.queue + [ev])
    ensures WakeInv(s')
  {
  }

  lemma ReduceKeepsWakes(s: State, ch: Choice, leased: set<Id>, fault: bool, finite: bool)
    requires WakeInv(s) && Enabled(s, Reduce(ch, leased, fault, finite))
    ensures var s' := Next(s, Reduce(ch, leased, fault, finite)); WakeInv(s') && s.acted <= s'.acted
  {
    PopKeepsWakes(s);
    ProcessKeepsWakes(Pop(s), s.vol.queue[0], ch, leased, fault, finite);
  }

  lemma DrainKeepsWakes(s: State, ch: Choice)
    requires WakeInv(s) && Enabled(s, DrainNext(ch))
    ensures WakeInv(Next(s, DrainNext(ch))) && s.acted <= Next(s, DrainNext(ch)).acted
  {
    PopKeepsWakes(s);
    if IsShutdownReducible(s.vol.queue[0]) { ProcessKeepsWakes(Pop(s), s.vol.queue[0], ch, {}, true, false); }
  }

  // The steps that neither reduce an event nor touch the timer or a generation.
  lemma RestKeepsWakes(s: State, step: Step)
    requires WakeInv(s) && Enabled(s, step)
    requires !step.Reduce? && !step.DrainNext? && !step.ReplayNext? && !step.StartEnds? && !step.Recover? && !step.TimerFires?
    ensures WakeInv(Next(s, step)) && s.acted <= Next(s, step).acted
  {
    if step.ReduceFails? {
      PopKeepsWakes(s);
    } else if !(step.Ingest? && step.id in s.store.log) {
      OtherKeepsWakes(s, Next(s, step));
    }
  }

  lemma WakeNext(s: State, step: Step)
    requires WakeInv(s) && Enabled(s, step)
    ensures WakeInv(Next(s, step)) && s.acted <= Next(s, step).acted
  {
    hide *;
    match step
    case Reduce(ch, leased, fault, finite) => ReduceKeepsWakes(s, ch, leased, fault, finite);
    case DrainNext(ch) => DrainKeepsWakes(s, ch);
    case ReplayNext(ch, finite) => ReplayKeepsWakes(s, ch, finite);
    case StartEnds(ch, at, finite) => StartEndsKeepsWakes(s, ch, at, finite);
    case TimerFires(at) => FiringKeepsWakes(s, at);
    case Recover(todo) => RecoverKeepsWakes(s, todo);
    case _ => RestKeepsWakes(s, step);
  }

  lemma RecoverKeepsWakes(s: State, todo: seq<Id>)
    requires WakeInv(s) && Enabled(s, Recover(todo))
    ensures WakeInv(Next(s, Recover(todo))) && s.acted <= Next(s, Recover(todo)).acted
  {
    UnreducedAreHuman(s.store.order, s.store.log);  // a start replays messages, never a missed wake
  }

  lemma FiringKeepsWakes(s: State, at: int)
    requires WakeInv(s) && Enabled(s, TimerFires(at))
    ensures WakeInv(Next(s, TimerFires(at))) && s.acted <= Next(s, TimerFires(at)).acted
  {
    assert Next(s, TimerFires(at)).vol.queue == s.vol.queue + [Wake(s.store.sessions, s.vol.armed.value, at)];
  }

  lemma ReplayKeepsWakes(s: State, ch: Choice, finite: bool)
    requires WakeInv(s) && Enabled(s, ReplayNext(ch, finite))
    ensures WakeInv(Next(s, ReplayNext(ch, finite))) && s.acted <= Next(s, ReplayNext(ch, finite)).acted
  {
    PopKeepsWakes(s);
    assert WakeInv(PopReplay(s));
    ProcessKeepsWakes(PopReplay(s), s.vol.queue[0], ch, All(PopReplay(s), s.vol.queue[0], ch), false, finite);
  }

  lemma StartEndsKeepsWakes(s: State, ch: Choice, at: int, finite: bool)
    requires WakeInv(s) && Enabled(s, StartEnds(ch, at, finite))
    ensures WakeInv(Next(s, StartEnds(ch, at, finite))) && s.acted <= Next(s, StartEnds(ch, at, finite)).acted
  {
    var ev := Reconcile(at);
    ProcessKeepsWakes(s, ev, ch, All(s, ev, ch), false, finite);
    var s' := Process(s, ev, ch, All(s, ev, ch), false, finite);
    hide WakeInv, Process, Handle;
    UpKeeps(s');
    ScheduleKeeps(s'.(vol := s'.vol.(phase := Up)), finite);
  }

  lemma UpKeeps(s: State)
    requires WakeInv(s) && !s.vol.phase.Down?
    ensures WakeInv(s.(vol := s.vol.(phase := Up)))
  {
  }

  lemma {:induction false} WakeRun(s: State, run: seq<Step>)
    requires WakeInv(s) && ValidRun(s, run)
    ensures WakeInv(Exec(s, run)) && s.acted <= Exec(s, run).acted
    decreases |run|
  {
    if run != [] {
      WakeNext(s, run[0]);
      WakeRun(Next(s, run[0]), run[1..]);
    }
  }

  // ---------------------------------------------------------------- one firing per generation

  ghost function Firings(s: State, run: seq<Step>, g: nat): nat
    requires ValidRun(s, run)
    decreases |run|
  {
    if run == [] then 0
    else (if run[0].TimerFires? && s.vol.armed == Some(g) then 1 else 0) + Firings(Next(s, run[0]), run[1..], g)
  }

  // A generation once passed, or fired, is never armed again.
  ghost predicate Past(s: State, g: nat) { g <= s.store.generation && s.vol.armed != Some(g) }

  lemma PastNext(s: State, step: Step, g: nat)
    requires WakeInv(s) && Enabled(s, step)
    ensures Past(s, g) || (step.TimerFires? && s.vol.armed == Some(g)) ==> Past(Next(s, step), g)
  {
    WakeNext(s, step);
    hide Process, Handle, Dispatch, Schedule, Unreduced, All;
    match step
    case Reduce(ch, leased, fault, finite) => ProcessArms(Pop(s), s.vol.queue[0], ch, leased, fault, finite);
    case DrainNext(ch) =>
      if IsShutdownReducible(s.vol.queue[0]) { ProcessArms(Pop(s), s.vol.queue[0], ch, {}, true, false); }
    case ReplayNext(ch, finite) =>
      ProcessArms(PopReplay(s), s.vol.queue[0], ch, All(PopReplay(s), s.vol.queue[0], ch), false, finite);
    case StartEnds(ch, at, finite) => ProcessArms(s, Reconcile(at), ch, All(s, Reconcile(at), ch), false, finite);
    case _ =>
  }

  lemma ProcessArms(s: State, ev: Event, ch: Choice, leased: set<Id>, fault: bool, finite: bool)
    ensures var s' := Process(s, ev, ch, leased, fault, finite);
            || (s'.vol.armed == s.vol.armed && s'.vol.generation == s.vol.generation && s'.store.generation == s.store.generation)
            || (s'.vol.generation == s'.store.generation == s.vol.generation + 1 && s'.vol.armed in {None, Some(s.vol.generation + 1)})
  {
    if Handle(s, ev, ch).Some? { HandleOnWakes(s, ev, ch); }
  }

  lemma {:induction false} FiresOnce(s: State, run: seq<Step>, g: nat)
    requires WakeInv(s) && ValidRun(s, run)
    ensures Firings(s, run, g) <= 1
    ensures Past(s, g) ==> Firings(s, run, g) == 0
    decreases |run|
  {
    if run != [] {
      WakeNext(s, run[0]);
      PastNext(s, run[0], g);
      FiresOnce(Next(s, run[0]), run[1..], g);
    }
  }

  // From the first start on, whatever the interleaving: at most one wake that would be acted on is
  // queued, none while the timer is armed, and no generation is acted on twice.
  lemma OneLiveWakeRun(caps: Caps, run: seq<Step>)
    requires ValidRun(Init(caps), run)
    ensures var s := Exec(Init(caps), run);
            && (forall i, j :: LiveAt(s, i) && LiveAt(s, j) ==> i == j)
            && (forall i :: LiveAt(s, i) ==> s.vol.armed.None?)
            && forall i, j :: 0 <= i < j < |s.acted| ==> s.acted[i] != s.acted[j]
  {
    WakeRun(Init(caps), run);
    var s := Exec(Init(caps), run);
    forall i | LiveAt(s, i) ensures s.vol.armed.None? && forall j :: LiveAt(s, j) ==> i == j {
      OneLiveWake(s, i, i);
      forall j | LiveAt(s, j) ensures i == j { OneLiveWake(s, i, j); }
    }
  }

  // ---------------------------------------------------------------- sessions and generations

  // A start opens a session and a generation that never were before; nothing takes either back.
  lemma SessionNext(s: State, step: Step)
    requires WakeInv(s) && Enabled(s, step)
    ensures var d, d' := s.store, Next(s, step).store;
            && d'.sessions == (if step.Recover? then d.sessions + 1 else d.sessions)
            && (if step.Recover? then d'.generation == d.generation + 1 else d'.generation >= d.generation)
  {
    hide Process, Handle, Dispatch, Schedule, Unreduced, All;
    match step
    case Reduce(ch, leased, fault, finite) => ProcessSession(Pop(s), s.vol.queue[0], ch, leased, fault, finite);
    case DrainNext(ch) =>
      if IsShutdownReducible(s.vol.queue[0]) { ProcessSession(Pop(s), s.vol.queue[0], ch, {}, true, false); }
    case ReplayNext(ch, finite) =>
      ProcessSession(PopReplay(s), s.vol.queue[0], ch, All(PopReplay(s), s.vol.queue[0], ch), false, finite);
    case StartEnds(ch, at, finite) => EndSession(s, ch, at, finite);
    case DispatchNext => DispatchSession(s);
    case _ =>
  }

  lemma DispatchSession(s: State)
    requires Enabled(s, DispatchNext)
    ensures Next(s, DispatchNext).store.sessions == s.store.sessions && Next(s, DispatchNext).store.generation == s.store.generation
  {
  }

  lemma ProcessSession(s: State, ev: Event, ch: Choice, leased: set<Id>, fault: bool, finite: bool)
    requires s.vol.generation == s.store.generation
    ensures var s' := Process(s, ev, ch, leased, fault, finite);
            s'.store.sessions == s.store.sessions && s'.store.generation >= s.store.generation
            && s'.vol.generation == s'.store.generation
  {
    if Handle(s, ev, ch).Some? { HandleOnWakes(s, ev, ch); }
  }

  lemma EndSession(s: State, ch: Choice, at: int, finite: bool)
    requires WakeInv(s) && Enabled(s, StartEnds(ch, at, finite))
    ensures Next(s, StartEnds(ch, at, finite)).store.sessions == s.store.sessions
    ensures Next(s, StartEnds(ch, at, finite)).store.generation > s.store.generation
  {
    ProcessSession(s, Reconcile(at), ch, All(s, Reconcile(at), ch), false, finite);
    hide Process, Handle, All;
  }

  // Over any run: as many new sessions as starts, and generations that only grow.
  lemma {:induction false} SessionRun(s: State, run: seq<Step>)
    requires WakeInv(s) && ValidRun(s, run)
    ensures Exec(s, run).store.sessions == s.store.sessions + Starts(run)
    ensures Exec(s, run).store.generation >= s.store.generation + Starts(run)
    decreases |run|
  {
    hide WakeInv, Next, Enabled;
    if run != [] {
      WakeNext(s, run[0]);
      SessionNext(s, run[0]);
      SessionRun(Next(s, run[0]), run[1..]);
    }
  }

  function Starts(run: seq<Step>): nat {
    if run == [] then 0 else (if run[0].Recover? then 1 else 0) + Starts(run[1..])
  }
}
