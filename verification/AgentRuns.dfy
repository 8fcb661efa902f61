// Concrete runs that show where the naive promises fail, and that the promises are not vacuous.
module AgentRuns {
  import opened Base
  import opened Agent
  import opened AgentWork
  import opened AgentInbox
  import opened AgentDuty
  import opened AgentOutlook
  import opened AgentWake
  import opened AgentBudget
  import opened AgentSilence

  // Every reachable state of a fresh agent has every invariant at once.
  lemma FromEmpty(caps: Caps, run: seq<Step>)
    requires ValidRun(Init(caps), run)
    ensures Inv(Exec(Init(caps), run)) && WakeInv(Exec(Init(caps), run)) && BudgetInv(Exec(Init(caps), run).store)
  {
    Reachable(caps, run);
    WakeRun(Init(caps), run);
    InitBudget(caps);
    BudgetRun(Init(caps), run);
  }

  lemma {:induction false} Extend(s: State, run: seq<Step>, step: Step)
    requires ValidRun(s, run) && Enabled(Exec(s, run), step)
    ensures ValidRun(s, run + [step]) && Exec(s, run + [step]) == Next(Exec(s, run), step)
    decreases |run|
  {
    hide Next, Enabled;
    if run == [] {
      assert run + [step] == [step];
    } else {
      Extend(Next(s, run[0]), run[1..], step);
      assert (run + [step])[1..] == run[1..] + [step];
    }
  }

  lemma {:induction false} Append(s: State, run: seq<Step>, more: seq<Step>)
    requires ValidRun(s, run) && ValidRun(Exec(s, run), more)
    ensures ValidRun(s, run + more) && Exec(s, run + more) == Exec(Exec(s, run), more)
    decreases |run|
  {
    hide Next, Enabled;
    if run == [] {
      assert run + more == more;
    } else {
      Append(Next(s, run[0]), run[1..], more);
      assert (run + more)[1..] == run[1..] + more;
    }
  }

  lemma Two(s: State, a: Step, b: Step)
    requires Enabled(s, a) && Enabled(Next(s, a), b)
    ensures ValidRun(s, [a, b]) && Exec(s, [a, b]) == Next(Next(s, a), b)
  {
    Extend(s, [], a);
    Extend(s, [] + [a], b);
    assert [] + [a] + [b] == [a, b];
  }

  const MESSAGE: Id := 7
  const ITEM: Id := 1

  // One mandatory turn, its item minted as ITEM in cycle 1.
  function Turn(): Choice { Choice(MandatoryPath, false, true, false, 1, ITEM, 2, {}, 5) }

  // The ids of every later reduction of these runs.
  function Later(): Choice { Turn().(path := SilentPath, llm := 3) }

  // The agent once it is up, before any message.
  function Idle(caps: Caps, generation: nat): State {
    var d := Init(caps).store.(generation := generation, sessions := 1);
    State(d, Volatile(Up, [], {}, generation, None), [], {})
  }

  function Item(status: Status, attempts: nat): Work { Work(Generative(MandatoryCycle), 1, 10, status, attempts) }

  // One message was reduced; its item has the given row, and the queue and the tasks are given.
  function Waiting(caps: Caps, item: Work, queue: seq<Event>, tasks: set<Task>): State {
    var d := Store(caps, map[MESSAGE := Entry(10, true)], [MESSAGE], [MESSAGE], map[ITEM := item],
                   map[ITEM := Obligation(MESSAGE, DUTY_PENDING, None)], map[], Budget(map[], map[], map[]), 3, 1);
    State(d, Volatile(Up, queue, tasks, 3, None), [], {})
  }

  // A start with nothing to do ends by scheduling the first wake.
  lemma QuietEnd(s: State, ch: Choice, finite: bool)
    requires s.vol.phase == Starting(0, []) && s.store.work == map[] && s.vol.tasks == {} && Fresh(s.store, ch) && ch.made == {}
    ensures Enabled(s, StartEnds(ch, 0, finite))
    ensures Next(s, StartEnds(ch, 0, finite)) == Schedule(s.(vol := s.vol.(phase := Up)), finite)
  {
    var mid := Process(s, Reconcile(0), ch, All(s, Reconcile(0), ch), false, finite);
    assert mid.store.work == map[] && mid.vol.tasks == {};
  }

  lemma FirstStart(caps: Caps) returns (run: seq<Step>)
    ensures ValidRun(Init(caps), run) && Exec(Init(caps), run) == Idle(caps, 2)
  {
    var s, quiet := Init(caps), Turn().(path := SilentPath);
    var s' := Next(s, Recover([]));
    assert s'.vol == Volatile(Starting(0, []), [], {}, 1, None);
    QuietEnd(s', quiet, false);
    hide Process, Handle, All;
    run := [Recover([]), StartEnds(quiet, 0, false)];
    Two(s, run[0], run[1]);
  }

  lemma FirstTurn(s: State)
    requires s.store.work == map[] && s.store.rows == map[] && s.store.obligations == map[] && s.vol.tasks == {}
    ensures ProcessEnabled(s, Human(MESSAGE, 10), Turn(), {ITEM}, false)
    ensures var s' := Process(s, Human(MESSAGE, 10), Turn(), {ITEM}, false, false);
            && s'.store == s.store.(turns := s.store.turns + [MESSAGE], log := s.store.log[MESSAGE := Entry(10, true)],
                                    work := map[ITEM := Item(RUNNING, 1)], generation := s.vol.generation + 1,
                                    obligations := map[ITEM := Obligation(MESSAGE, DUTY_PENDING, None)])
            && s'.vol == s.vol.(tasks := {Task(ITEM, Item(RUNNING, 1), 1)}, generation := s.vol.generation + 1, armed := None)
            && s'.acted == s.acted && s'.forged == s.forged
  {
    var o := Handle(s, Human(MESSAGE, 10), Turn());
    assert o.Some? && o.value.dispatch == {ITEM} && o.value.store.work == map[ITEM := Item(PENDING, 0)];
    var mid := Commit(s, o.value);
    var after := Dispatch(mid, {ITEM});
    assert mid.vol == s.vol && {ITEM} * mid.store.work.Keys == {ITEM} && Leased(mid.store.work[ITEM]) == Item(RUNNING, 1);
    assert after.store.work == map[ITEM := Item(RUNNING, 1)];
    assert after.vol.tasks == (set w | w in {ITEM} :: Task(w, Leased(mid.store.work[w]), 1));
    assert Task(ITEM, Item(RUNNING, 1), 1) in after.vol.tasks;
  }

  lemma FirstMessage(caps: Caps) returns (run: seq<Step>)
    ensures ValidRun(Idle(caps, 2), run)
    ensures Exec(Idle(caps, 2), run) == Waiting(caps, Item(RUNNING, 1), [], {Task(ITEM, Item(RUNNING, 1), 1)})
  {
    var s := Idle(caps, 2);
    var ask := Reduce(Turn(), {ITEM}, false, false);
    run := [Ingest(MESSAGE, 10), ask];
    var s' := Next(s, run[0]);
    assert s'.vol.queue == [Human(MESSAGE, 10)] && Pop(s').vol.queue == [];
    FirstTurn(Pop(s'));
    hide Process, Handle, ProcessEnabled;
    Two(s, run[0], run[1]);
  }

  // A first start, one message that demands an answer, and its item leased.
  lemma Asked(caps: Caps) returns (run: seq<Step>)
    ensures ValidRun(Init(caps), run)
    ensures Exec(Init(caps), run) == Waiting(caps, Item(RUNNING, 1), [], {Task(ITEM, Item(RUNNING, 1), 1)})
  {
    var start := FirstStart(caps);
    var turn := FirstMessage(caps);
    Append(Init(caps), start, turn);
    run := start + turn;
  }

  // ---------------------------------------------------------------- the fail-terminal window

  lemma GivesUp(s: State, t: Task, at: int)
    requires Inv(s) && t in s.vol.tasks && t.attempt == MAX_ATTEMPTS && Owed(s, t.work)
    ensures Inv(Next(s, TaskExhausted(t, at))) && AtRisk(Next(s, TaskExhausted(t, at)), t.work)
  {
    assert TaskOk(s, t);
    InvNext(s, TaskExhausted(t, at));
    JustGivenUp(s, TaskExhausted(t, at), t.work);
  }

  // Whatever the agent holds, giving up an owed item and then crashing strands its obligation,
  // and no later step of any kind brings an answer or a failure.
  lemma CrashStrands(s: State, t: Task, at: int, more: seq<Step>)
    requires Inv(s) && t in s.vol.tasks && t.attempt == MAX_ATTEMPTS && Owed(s, t.work)
    requires Enabled(Next(s, TaskExhausted(t, at)), Crash)
    requires ValidRun(Next(Next(s, TaskExhausted(t, at)), Crash), more)
    ensures Stranded(Exec(Next(Next(s, TaskExhausted(t, at)), Crash), more), t.work)
  {
    hide Inv, Next, AtRisk;
    var mid := Next(s, TaskExhausted(t, at));
    GivesUp(s, t, at);
    InvNext(mid, Crash);
    StrandedNext(mid, Crash, t.work);
    StrandedRun(Next(mid, Crash), more, t.work);
  }

  lemma Retried(caps: Caps, attempts: nat) returns (s': State)
    requires 1 <= attempts < MAX_ATTEMPTS
    ensures var t := Task(ITEM, Item(RUNNING, attempts), attempts);
            var s := Waiting(caps, t.held, [], {t});
            Enabled(s, TaskRetries(t)) && s' == Next(s, TaskRetries(t))
    ensures s' == Waiting(caps, Item(RUNNING, attempts + 1), [], {Task(ITEM, Item(RUNNING, attempts + 1), attempts + 1)})
  {
    var t := Task(ITEM, Item(RUNNING, attempts), attempts);
    var s := Waiting(caps, t.held, [], {t});
    s' := Next(s, TaskRetries(t));
    assert s'.store.work == map[ITEM := Item(RUNNING, attempts + 1)];
    assert s'.vol.tasks == {Task(ITEM, Item(RUNNING, attempts + 1), attempts + 1)};
  }

  // The window is real: from an empty store, a message whose item fails three times and a crash
  // before the report is reduced leave the obligation pending for ever.
  lemma StrandedForGood(caps: Caps) returns (run: seq<Step>)
    ensures ValidRun(Init(caps), run)
    ensures forall more :: ValidRun(Exec(Init(caps), run), more) ==> Stranded(Exec(Exec(Init(caps), run), more), ITEM)
  {
    var s0 := Init(caps);
    var asked := Asked(caps);
    var s2 := Retried(caps, 1);
    var s3 := Retried(caps, 2);
    var first, last := Task(ITEM, Item(RUNNING, 1), 1), Task(ITEM, Item(RUNNING, 3), 3);
    var second := Task(ITEM, Item(RUNNING, 2), 2);
    Extend(s0, asked, TaskRetries(first));
    var run2 := asked + [TaskRetries(first)];
    Extend(s0, run2, TaskRetries(second));
    var run3 := run2 + [TaskRetries(second)];
    Reachable(caps, run3);
    var mid := Next(s3, TaskExhausted(last, 20));
    Extend(s0, run3, TaskExhausted(last, 20));
    var run4 := run3 + [TaskExhausted(last, 20)];
    assert Enabled(mid, Crash);
    Extend(s0, run4, Crash);
    run := run4 + [Crash];
    forall more | ValidRun(Next(mid, Crash), more) ensures Stranded(Exec(Next(mid, Crash), more), ITEM) {
      CrashStrands(s3, last, 20, more);
    }
  }

  // ---------------------------------------------------------------- a forged failure

  // The message's obligation failed on a returned body that held the reserved key.
  function Forged(caps: Caps, item: Work, vol: Volatile, generation: nat, sessions: nat): State {
    var d := Store(caps, map[MESSAGE := Entry(10, true)], [MESSAGE], [MESSAGE], map[ITEM := item],
                   map[ITEM := Obligation(MESSAGE, FAILED, None)], map[], Budget(map[], map[], map[]), generation, sessions);
    State(d, vol, [], {ITEM})
  }

  lemma FailsWhileRunning(caps: Caps)
    ensures var t := Task(ITEM, Item(RUNNING, 1), 1);
            var s := Waiting(caps, t.held, [], {t});
            var a, b := TaskReturns(t, Sentinel, 20), Reduce(Later(), {}, false, false);
            && ValidRun(s, [a, b])
            && Exec(s, [a, b]) == Forged(caps, t.held, Volatile(Up, [], {}, 3, None), 3, 1)
  {
    var t := Task(ITEM, Item(RUNNING, 1), 1);
    var s := Waiting(caps, t.held, [], {t});
    var a, b := TaskReturns(t, Sentinel, 20), Reduce(Later(), {}, false, false);
    var s' := Next(s, a);
    assert s'.vol.queue == [LlmResult(ITEM, 1, Sentinel, 20)] && s'.vol.tasks == {};
    var p := Pop(s');
    assert p.vol.queue == [];
    assert Handle(p, s'.vol.queue[0], Later()) == Some(Outcome(Fail(p.store, ITEM), {}, false, false));
    assert Next(s', b).store.work == map[ITEM := Item(RUNNING, 1)] && Next(s', b).vol.tasks == {};
    Two(s, a, b);
  }

  lemma RestartsForged(caps: Caps)
    ensures var s := Forged(caps, Item(RUNNING, 1), Volatile(Up, [], {}, 3, None), 3, 1);
            var s' := Forged(caps, Item(PENDING, 1), Volatile(Starting(0, [ITEM]), [], {}, 4, None), 4, 2);
            ValidRun(s, [Crash, Recover([ITEM])]) && Exec(s, [Crash, Recover([ITEM])]) == s'
  {
    var s := Forged(caps, Item(RUNNING, 1), Volatile(Up, [], {}, 3, None), 3, 1);
    var down := Next(s, Crash);
    assert Enabled(down, Recover([ITEM]));
    var up := Next(down, Recover([ITEM]));
    assert up.store.work == map[ITEM := Item(PENDING, 1)];
    assert Unreduced([MESSAGE], down.store.log) == [];
    Two(s, Crash, Recover([ITEM]));
  }

  lemma LeasesForged(caps: Caps)
    ensures var s := Forged(caps, Item(PENDING, 1), Volatile(Starting(0, [ITEM]), [], {}, 4, None), 4, 2);
            && Enabled(s, DispatchNext)
            && Next(s, DispatchNext)
               == Forged(caps, Item(RUNNING, 2), Volatile(Starting(0, []), [], {Task(ITEM, Item(RUNNING, 2), 1)}, 4, None), 4, 2)
  {
    var s := Forged(caps, Item(PENDING, 1), Volatile(Starting(0, [ITEM]), [], {}, 4, None), 4, 2);
    var mid := Next(s, DispatchNext);
    assert mid.store.work == map[ITEM := Item(RUNNING, 2)];
    assert {ITEM} * s.store.work.Keys == {ITEM};
    assert mid.vol.tasks == {Task(ITEM, Item(RUNNING, 2), 1)};
    assert mid.vol.phase == Starting(0, []);
  }

  lemma EndsForgedStart(caps: Caps)
    ensures var t := Task(ITEM, Item(RUNNING, 2), 1);
            var s := Forged(caps, t.held, Volatile(Starting(0, []), [], {t}, 4, None), 4, 2);
            && Enabled(s, StartEnds(Later(), 30, false))
            && Next(s, StartEnds(Later(), 30, false)) == Forged(caps, t.held, Volatile(Up, [], {t}, 5, None), 5, 2)
  {
    var t := Task(ITEM, Item(RUNNING, 2), 1);
    var s := Forged(caps, t.held, Volatile(Starting(0, []), [], {t}, 4, None), 4, 2);
    var after := Process(s, Reconcile(30), Later(), All(s, Reconcile(30), Later()), false, false);
    assert after.store.work == s.store.work && after.vol.tasks == s.vol.tasks;
    assert Enabled(s, StartEnds(Later(), 30, false));
    var up := after.(vol := after.vol.(phase := Up));
    assert up.vol == Volatile(Up, [], {t}, 4, None) && up.store == s.store;
    assert Next(s, StartEnds(Later(), 30, false)) == Schedule(up, false);
    assert Schedule(up, false) == Forged(caps, t.held, Volatile(Up, [], {t}, 5, None), 5, 2);
  }

  lemma RunsForgedAgain(caps: Caps)
    ensures var s := Forged(caps, Item(PENDING, 1), Volatile(Starting(0, [ITEM]), [], {}, 4, None), 4, 2);
            var s' := Forged(caps, Item(RUNNING, 2), Volatile(Up, [], {Task(ITEM, Item(RUNNING, 2), 1)}, 5, None), 5, 2);
            var b := StartEnds(Later(), 30, false);
            ValidRun(s, [DispatchNext, b]) && Exec(s, [DispatchNext, b]) == s'
  {
    hide Next, Enabled;
    var s := Forged(caps, Item(PENDING, 1), Volatile(Starting(0, [ITEM]), [], {}, 4, None), 4, 2);
    LeasesForged(caps);
    EndsForgedStart(caps);
    Two(s, DispatchNext, StartEnds(Later(), 30, false));
  }

  lemma AnswersForged(caps: Caps)
    ensures var t := Task(ITEM, Item(RUNNING, 2), 1);
            var s := Forged(caps, Item(RUNNING, 2), Volatile(Up, [], {t}, 5, None), 5, 2);
            var a, b := TaskReturns(t, Speak, 40), Reduce(Later(), {}, false, false);
            && ValidRun(s, [a, b])
            && Exec(s, [a, b]).store.obligations == map[ITEM := Obligation(MESSAGE, SATISFIED, Some(5))]
  {
    var t := Task(ITEM, Item(RUNNING, 2), 1);
    var s := Forged(caps, Item(RUNNING, 2), Volatile(Up, [], {t}, 5, None), 5, 2);
    var ch := Later();
    var a, b := TaskReturns(t, Speak, 40), Reduce(ch, {}, false, false);
    var s' := Next(s, a);
    assert s'.vol.queue == [LlmResult(ITEM, 1, Speak, 40)];
    var p := Pop(s');
    var done := p.store.(work := SetStatus(p.store.work, ITEM, COMPLETED));
    assert HandleLlmResult(p.store, ITEM, 1, Speak, 40, ch) == FinishMandatory(done, ITEM, 1, true, 40, ch);
    Two(s, a, b);
  }

  // The exception to absorption is real: a worker body that holds the reserved error key fails
  // the obligation while its item is still leased, and after a restart the same item answers it.
  lemma ResolvedTwice(caps: Caps) returns (run: seq<Step>, more: seq<Step>)
    ensures ValidRun(Init(caps), run) && ValidRun(Exec(Init(caps), run), more)
    ensures var s := Exec(Init(caps), run);
            && ITEM in s.store.obligations && s.store.obligations[ITEM].status.FAILED? && s.forged == {ITEM}
            && ITEM in Exec(s, more).store.obligations && Exec(s, more).store.obligations[ITEM].status.SATISFIED?
  {
    var asked := Asked(caps);
    FailsWhileRunning(caps);
    var fail := [TaskReturns(Task(ITEM, Item(RUNNING, 1), 1), Sentinel, 20), Reduce(Later(), {}, false, false)];
    Append(Init(caps), asked, fail);
    run := asked + fail;
    var s := Exec(Init(caps), run);
    RestartsForged(caps);
    RunsForgedAgain(caps);
    AnswersForged(caps);
    var restart := [Crash, Recover([ITEM])];
    var again := [DispatchNext, StartEnds(Later(), 30, false)];
    var answer := [TaskReturns(Task(ITEM, Item(RUNNING, 2), 1), Speak, 40), Reduce(Later(), {}, false, false)];
    Append(s, restart, again);
    Append(s, restart + again, answer);
    more := restart + again + answer;
  }

  // ---------------------------------------------------------------- the lost wake

  lemma ArmedStart(caps: Caps) returns (run: seq<Step>)
    ensures ValidRun(Init(caps), run)
    ensures Exec(Init(caps), run) == Idle(caps, 2).(vol := Idle(caps, 2).vol.(armed := Some(2)))
  {
    var s, quiet := Init(caps), Turn().(path := SilentPath);
    var s' := Next(s, Recover([]));
    assert s'.vol == Volatile(Starting(0, []), [], {}, 1, None);
    QuietEnd(s', quiet, true);
    hide Process, Handle, All;
    run := [Recover([]), StartEnds(quiet, 0, true)];
    Two(s, run[0], run[1]);
  }

  lemma FiresAndFails(caps: Caps, s: State)
    requires s == Idle(caps, 2).(vol := Idle(caps, 2).vol.(armed := Some(2)))
    ensures ValidRun(s, [TimerFires(0), ReduceFails]) && Exec(s, [TimerFires(0), ReduceFails]) == Idle(caps, 2)
  {
    var fired := Next(s, TimerFires(0));
    assert fired.vol.queue == [Wake(1, 2, 0)] && Pop(fired).vol.queue == [];
    Two(s, TimerFires(0), ReduceFails);
  }

  // From an empty store: the first wake fires, its reduction raises, and the service stays up with
  // no timer armed and no wake to come.
  lemma WakeLost(caps: Caps) returns (run: seq<Step>)
    ensures ValidRun(Init(caps), run) && Silent(Exec(Init(caps), run))
  {
    var start := ArmedStart(caps);
    FiresAndFails(caps, Exec(Init(caps), start));
    Append(Init(caps), start, [TimerFires(0), ReduceFails]);
    run := start + [TimerFires(0), ReduceFails];
  }
}
