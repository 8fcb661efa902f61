// Work items: one task or one queued result at a time, terminal states that stay, bounded retries.
module AgentWork {
  import opened Base
  import opened Agent

  ghost predicate Carries(ev: Event, w: Id) {
    (ev.LlmResult? || ev.EmbeddingResult?) && ev.work == w
  }

  predicate Terminal(status: Status) { status.COMPLETED? || status.FAILED_TERMINAL? }

  // Bounds the attempts made before the current session.
  function Before(s: State): nat { if s.store.sessions == 0 then 0 else MAX_ATTEMPTS * (s.store.sessions - 1) }

  ghost predicate TaskOk(s: State, t: Task) {
    && t.work in s.store.work
    && var w := s.store.work[t.work];
       && w.status.RUNNING? && w.kind == t.held.kind && w.cycle == t.held.cycle
       && 1 <= t.attempt <= MAX_ATTEMPTS && w.attempts <= Before(s) + t.attempt
  }

  // A queued result names a leased item, or is the error report of one that failed for good.
  ghost predicate ResultOk(s: State, ev: Event) {
    match ev
    case LlmResult(w, cycle, body, _) =>
      && w in s.store.work && s.store.work[w].kind.Generative? && s.store.work[w].cycle == cycle
      && (|| (s.store.work[w].status.RUNNING? && (body.Sentinel? ==> w in s.forged))
          || (s.store.work[w].status.FAILED_TERMINAL? && body.Sentinel?))
    case EmbeddingResult(w, _) =>
      w in s.store.work && s.store.work[w].kind.Embedding? && s.store.work[w].status.RUNNING?
    case _ => true
  }

  ghost predicate TasksInv(s: State) {
    && (forall t :: t in s.vol.tasks ==> TaskOk(s, t))
    && (forall t, u :: t in s.vol.tasks && u in s.vol.tasks && t.work == u.work ==> t == u)
  }

  ghost predicate ResultsInv(s: State) {
    && (forall i :: 0 <= i < |s.vol.queue| ==> ResultOk(s, s.vol.queue[i]))
    && (forall i, j, w :: 0 <= i < j < |s.vol.queue| && Carries(s.vol.queue[i], w) ==> !Carries(s.vol.queue[j], w))
    && (forall t, i :: t in s.vol.tasks && 0 <= i < |s.vol.queue| ==> !Carries(s.vol.queue[i], t.work))
  }

  ghost predicate OneGenerativePerCycle(work: map<Id, Work>) {
    forall v, w :: v in work && w in work && work[v].kind.Generative? && work[w].kind.Generative?
                   && work[v].cycle == work[w].cycle
      ==> v == w
  }

  ghost predicate TableInv(s: State) {
    && (forall w :: w in s.store.work ==> s.store.work[w].attempts <= MAX_ATTEMPTS * s.store.sessions)
    && (!s.vol.phase.Down? ==> s.store.sessions > 0)
    && (!s.vol.phase.Down? ==>
          forall w :: w in s.store.work && s.store.work[w].status.PENDING? ==> s.store.work[w].attempts <= Before(s))
    && OneGenerativePerCycle(s.store.work)
    && (s.vol.phase.Starting? ==>
          && Distinct(s.vol.phase.todo)
          && (forall w :: w in s.vol.phase.todo <==> w in s.store.work && s.store.work[w].status.PENDING?))
    && (s.vol.phase.Down? ==> s.vol == Nothing())
  }

  ghost predicate WorkInv(s: State) { TasksInv(s) && ResultsInv(s) && TableInv(s) }

  // The items an event completes when it is reduced.
  ghost predicate Completes(d: Store, ev: Event, w: Id) {
    && w in d.work && Carries(ev, w) && !d.work[w].status.COMPLETED?
    && (ev.LlmResult? ==> !ev.body.Sentinel? && d.work[w].cycle == ev.cycle)
  }

  // Every handler, seen from the work table: it adds fresh PENDING items, which are exactly the
  // ones it asks to dispatch, and completes at most the item its event reports on.
  ghost predicate WorkEffect(d: Store, ev: Event, ch: Choice, o: Outcome) {
    && o.dispatch == o.store.work.Keys - d.work.Keys && d.work.Keys <= o.store.work.Keys
    && (forall w :: w in o.dispatch ==> o.store.work[w].status.PENDING? && o.store.work[w].attempts == 0)
    && (forall w :: w in d.work ==>
          o.store.work[w] == if Completes(d, ev, w) then d.work[w].(status := COMPLETED) else d.work[w])
    && (forall w :: w in o.dispatch && o.store.work[w].kind.Generative?
          ==> w == ch.llm && !CycleTaken(d.work, o.store.work[w].cycle))
    && o.store.sessions == d.sessions
  }

  // A handler that only adds fresh items.
  lemma AddsOnWork(d: Store, ev: Event, ch: Choice, o: Outcome, added: map<Id, Work>)
    requires !ev.LlmResult? && !ev.EmbeddingResult? && o.store.sessions == d.sessions
    requires o.store.work == d.work + added && o.dispatch == added.Keys && added.Keys !! d.work.Keys
    requires forall w :: w in added ==> added[w].status.PENDING? && added[w].attempts == 0
    requires forall w :: w in added && added[w].kind.Generative? ==> w == ch.llm && !CycleTaken(d.work, added[w].cycle)
    ensures WorkEffect(d, ev, ch, o)
  {
    hide CycleTaken;
  }

  lemma TakenStays(d: Store, ch: Choice, at: int)
    requires Fresh(d, ch) && CycleTaken(d.work, ch.cycle)
    ensures CycleTaken(d.work[ch.emb := NewWork(Embedding, ch.cycle, at)], ch.cycle)
  {
    var w :| w in d.work && d.work[w].kind.Generative? && d.work[w].cycle == ch.cycle;
    assert d.work[ch.emb := NewWork(Embedding, ch.cycle, at)][w] == d.work[w];
  }

  // The items a turn creates: one for its embedding, one unless it stays silent.
  function Embedded(ch: Choice, at: int): map<Id, Work> {
    if ch.embed then map[ch.emb := NewWork(Embedding, ch.cycle, at)] else map[]
  }

  function Answering(ch: Choice, at: int): Work {
    NewWork(Generative(if ch.path.OptionalPath? then ReactiveCycle else MandatoryCycle), ch.cycle, at)
  }

  function Heard(ch: Choice, at: int): map<Id, Work> {
    if ch.path.SilentPath? then Embedded(ch, at) else Embedded(ch, at)[ch.llm := Answering(ch, at)]
  }

  lemma PutLast<K, V>(m: map<K, V>, n: map<K, V>, k: K, v: V)
    ensures (m + n)[k := v] == m + n[k := v] && n[k := v].Keys == n.Keys + {k}
  {
  }

  lemma EmbeddedAdds(d: Store, ch: Choice, at: int)
    ensures d.work + Embedded(ch, at) == if ch.embed then d.work[ch.emb := NewWork(Embedding, ch.cycle, at)] else d.work
    ensures Embedded(ch, at).Keys == if ch.embed then {ch.emb} else {}
  {
  }

  lemma HumanAdds(d: Store, id: Id, at: int, ch: Choice)
    requires Fresh(d, ch) && HandleHuman(d, id, at, ch).Some?
    ensures var o := HandleHuman(d, id, at, ch).value;
            && o.store.work == d.work + Heard(ch, at) && o.dispatch == Heard(ch, at).Keys && o.store.sessions == d.sessions
    ensures !ch.path.SilentPath? ==> !CycleTaken(d.work, ch.cycle)
  {
    if CycleTaken(d.work, ch.cycle) { TakenStays(d, ch, at); }
    EmbeddedAdds(d, ch, at);
    PutLast(d.work, Embedded(ch, at), ch.llm, Answering(ch, at));
    hide CycleTaken, Embedded, Fresh;
  }

  lemma HumanOnWork(d: Store, id: Id, at: int, ch: Choice)
    requires Fresh(d, ch) && HandleHuman(d, id, at, ch).Some?
    ensures WorkEffect(d, Human(id, at), ch, HandleHuman(d, id, at, ch).value)
  {
    hide WorkEffect, CycleTaken, HandleHuman;
    HumanAdds(d, id, at, ch);
    AddsOnWork(d, Human(id, at), ch, HandleHuman(d, id, at, ch).value, Heard(ch, at));
  }

  // Each way of finishing adds the proposals' embedding items and nothing else to the table.
  lemma FinishOnWork(d: Store, w: Id, cycle: Id, speak: bool, at: int, ch: Choice)
    requires w in d.work
    ensures forall o :: o in [FinishMandatory(d, w, cycle, speak, at, ch), FinishReactive(d, cycle, speak, at, ch),
                              FinishProactive(d, cycle, speak, at, ch)]
              ==> o.store.work == AddEmbeddings(d.work, ch.made, ch.cycle, at) && o.dispatch == ch.made
                  && o.store.sessions == d.sessions
  {
  }

  lemma LlmOnWork(d: Store, w: Id, cycle: Id, body: Body, at: int, ch: Choice)
    requires Fresh(d, ch)
    ensures WorkEffect(d, LlmResult(w, cycle, body, at), ch, HandleLlmResult(d, w, cycle, body, at, ch))
  {
    hide FinishMandatory, FinishReactive, FinishProactive;
    var o := HandleLlmResult(d, w, cycle, body, at, ch);
    var ev := LlmResult(w, cycle, body, at);
    var done := SetStatus(d.work, w, COMPLETED);
    if w !in d.work || d.work[w].cycle != cycle || d.work[w].status == COMPLETED || body.Sentinel? {
      assert o.store.work == d.work;
    } else if body.Unparsable? {
      assert o.store.work == done;
    } else {
      var finished := d.(work := done);
      FinishOnWork(finished, w, cycle, body.Speak?, at, ch);
      assert o in [FinishMandatory(finished, w, cycle, body.Speak?, at, ch), FinishReactive(finished, cycle, body.Speak?, at, ch),
                   FinishProactive(finished, cycle, body.Speak?, at, ch)];
    }
  }

  lemma HandleOnWork(s: State, ev: Event, ch: Choice)
    requires Fresh(s.store, ch) && Handle(s, ev, ch).Some?
    ensures WorkEffect(s.store, ev, ch, Handle(s, ev, ch).value)
  {
    match ev
    case Human(id, at) => HumanOnWork(s.store, id, at, ch);
    case LlmResult(w, cycle, body, at) => LlmOnWork(s.store, w, cycle, body, at, ch);
    case Wake(_, _, _) =>
    case EmbeddingResult(_, _) =>
    case Reconcile(_) =>
  }

  // What `Process` leaves in the work table, among the tasks and in the queue.
  ghost predicate ProcessEffect(s: State, s': State, ev: Event, ch: Choice, o: Outcome, leased: set<Id>) {
    && WorkEffect(s.store, ev, ch, o) && leased <= o.dispatch
    && s'.store.work == Lease(o.store.work, leased)
    && s'.vol.tasks == s.vol.tasks + (set w | w in leased :: Task(w, Leased(o.store.work[w]), 1))
    && s'.vol.queue == s.vol.queue && s'.vol.phase == s.vol.phase
    && s'.store.sessions == s.store.sessions && s'.forged == s.forged
  }

  lemma ProcessOnWork(s: State, ev: Event, ch: Choice, leased: set<Id>, fault: bool, finite: bool)
    requires ProcessEnabled(s, ev, ch, leased, fault) && Handle(s, ev, ch).Some?
    ensures ProcessEffect(s, Process(s, ev, ch, leased, fault, finite), ev, ch, Handle(s, ev, ch).value, leased)
  {
    HandleOnWork(s, ev, ch);
    assert leased * Handle(s, ev, ch).value.store.work.Keys == leased;
  }

  // The event being processed is out of the queue but still the only carrier of its item.
  ghost predicate Alone(s: State, ev: Event) {
    && ResultOk(s, ev)
    && (forall i, w :: 0 <= i < |s.vol.queue| && Carries(ev, w) ==> !Carries(s.vol.queue[i], w))
    && (forall t :: t in s.vol.tasks ==> !Carries(ev, t.work))
  }

  lemma EffectOnTasks(s: State, s': State, ev: Event, ch: Choice, o: Outcome, leased: set<Id>)
    requires WorkInv(s) && Alone(s, ev) && ProcessEffect(s, s', ev, ch, o, leased)
    ensures TasksInv(s')
  {
    forall t | t in s'.vol.tasks ensures TaskOk(s', t) {
      if t in s.vol.tasks {
        assert TaskOk(s, t) && !Completes(s.store, ev, t.work);
      }
    }
  }

  lemma EffectOnResults(s: State, s': State, ev: Event, ch: Choice, o: Outcome, leased: set<Id>)
    requires WorkInv(s) && Alone(s, ev) && ProcessEffect(s, s', ev, ch, o, leased)
    ensures ResultsInv(s')
  {
    forall i | 0 <= i < |s'.vol.queue| ensures ResultOk(s', s'.vol.queue[i]) {
      var q := s.vol.queue[i];
      assert ResultOk(s, q);
      if q.LlmResult? || q.EmbeddingResult? {
        assert Carries(q, q.work) && !Completes(s.store, ev, q.work);
      }
    }
    forall t, i | t in s'.vol.tasks && 0 <= i < |s'.vol.queue| ensures !Carries(s'.vol.queue[i], t.work) {
      assert ResultOk(s, s.vol.queue[i]);
    }
  }

  lemma EffectOnTable(s: State, s': State, ev: Event, ch: Choice, o: Outcome, leased: set<Id>)
    requires WorkInv(s) && Alone(s, ev) && ProcessEffect(s, s', ev, ch, o, leased)
    requires s.vol.phase.Starting? ==> leased == o.dispatch
    requires !s.vol.phase.Down?
    ensures TableInv(s')
  {
    EffectOnCycles(s, s', ev, ch, o, leased);
  }

  lemma EffectOnCycles(s: State, s': State, ev: Event, ch: Choice, o: Outcome, leased: set<Id>)
    requires WorkInv(s) && ProcessEffect(s, s', ev, ch, o, leased)
    ensures OneGenerativePerCycle(s'.store.work)
  {
    var work := s'.store.work;
    forall v, w | v in work && w in work && work[v].kind.Generative? && work[w].kind.Generative?
                  && work[v].cycle == work[w].cycle
      ensures v == w
    {
      assert v !in o.dispatch ==> s.store.work[v].kind == work[v].kind && s.store.work[v].cycle == work[v].cycle;
      assert w !in o.dispatch ==> s.store.work[w].kind == work[w].kind && s.store.work[w].cycle == work[w].cycle;
    }
  }

  lemma ProcessKeeps(s: State, ev: Event, ch: Choice, leased: set<Id>, fault: bool, finite: bool)
    requires WorkInv(s) && ProcessEnabled(s, ev, ch, leased, fault) && Alone(s, ev)
    requires !s.vol.phase.Down? && (s.vol.phase.Starting? ==> !fault)
    ensures WorkInv(Process(s, ev, ch, leased, fault, finite))
  {
    if Handle(s, ev, ch).Some? {
      ProcessOnWork(s, ev, ch, leased, fault, finite);
      var o, s' := Handle(s, ev, ch).value, Process(s, ev, ch, leased, fault, finite);
      EffectOnTasks(s, s', ev, ch, o, leased);
      EffectOnResults(s, s', ev, ch, o, leased);
      EffectOnTable(s, s', ev, ch, o, leased);
    }
  }

  lemma PopKeeps(s: State)
    requires WorkInv(s) && s.vol.queue != []
    ensures WorkInv(Pop(s)) && Alone(Pop(s), s.vol.queue[0])
  {
    var s' := Pop(s);
    forall i | 0 <= i < |s'.vol.queue| ensures ResultOk(s', s'.vol.queue[i]) {
      assert ResultOk(s, s.vol.queue[i + 1]);
    }
    assert ResultOk(s, s.vol.queue[0]);
    assert forall i :: 0 <= i < |s'.vol.queue| ==> s'.vol.queue[i] == s.vol.queue[i + 1];
    assert forall t :: t in s'.vol.tasks ==> TaskOk(s, t);
  }

  lemma EnqueueKeeps(s: State, ev: Event)
    requires WorkInv(s) && Alone(s, ev) && !s.vol.phase.Down?
    ensures WorkInv(Enqueue(s, ev))
  {
    var s' := Enqueue(s, ev);
    assert forall t :: t in s'.vol.tasks ==> TaskOk(s, t);
    forall i | 0 <= i < |s'.vol.queue| ensures ResultOk(s', s'.vol.queue[i]) {
      assert ResultOk(s, s'.vol.queue[i]);
    }
  }

  lemma TaskStepKeeps(s: State, step: Step)
    requires WorkInv(s) && Enabled(s, step)
    requires step.TaskReturns? || step.TaskRetries? || step.TaskExhausted? || step.TaskDies?
    ensures WorkInv(Next(s, step))
  {
    var t := step.task;
    assert TaskOk(s, t);
    match step
    case TaskReturns(_, body, at) =>
      var mid := s.(vol := s.vol.(tasks := s.vol.tasks - {t}), forged := if body.Sentinel? then s.forged + {t.work} else s.forged);
      assert WorkInv(mid) && Alone(mid, EventOf(t, body, at)) by { Relax(s, mid); }
      EnqueueKeeps(mid, EventOf(t, body, at));
    case TaskRetries(_) => RetryKeeps(s, t);
    case TaskExhausted(_, at) => ExhaustedKeeps(s, t, at);
    case TaskDies(_) => Relax(s, Next(s, step));
  }

  // Dropping tasks, recording forged items, moving between phases and touching other tables
  // keeps the invariant.
  lemma Relax(s: State, s': State)
    requires WorkInv(s) && s'.store.work == s.store.work && s'.store.sessions == s.store.sessions
    requires s.forged <= s'.forged && !s.vol.phase.Down? && !s'.vol.phase.Down?
    requires s'.vol.phase.Starting? ==> s.vol.phase.Starting? && s'.vol.phase.todo == s.vol.phase.todo
    requires s'.vol.queue == s.vol.queue && s'.vol.tasks <= s.vol.tasks
    ensures WorkInv(s')
  {
    forall t | t in s'.vol.tasks ensures TaskOk(s', t) { assert TaskOk(s, t); }
    forall i | 0 <= i < |s'.vol.queue| ensures ResultOk(s', s'.vol.queue[i]) {
      assert ResultOk(s, s.vol.queue[i]);
    }
  }

  lemma RetryKeeps(s: State, t: Task)
    requires WorkInv(s) && Enabled(s, TaskRetries(t))
    ensures WorkInv(Next(s, TaskRetries(t)))
  {
    RetryShape(s, t);
    var s' := Next(s, TaskRetries(t));
    hide Next, Enabled, Process, Handle;
    forall u | u in s'.vol.tasks ensures TaskOk(s', u) { assert u in s.vol.tasks ==> TaskOk(s, u); }
    forall i | 0 <= i < |s'.vol.queue| ensures ResultOk(s', s'.vol.queue[i]) {
      assert ResultOk(s, s.vol.queue[i]);
    }
  }

  // A retry leases the item of its task once more, under a new task.
  lemma RetryShape(s: State, t: Task)
    requires WorkInv(s) && Enabled(s, TaskRetries(t))
    ensures TaskOk(s, t) && t in s.vol.tasks && t.attempt < MAX_ATTEMPTS
    ensures var row, s' := s.store.work[t.work], Next(s, TaskRetries(t));
            && s'.store.work == s.store.work[t.work := Leased(row)]
            && s'.vol.tasks == s.vol.tasks - {t} + {Task(t.work, Leased(row), t.attempt + 1)}
            && s'.store.sessions == s.store.sessions && s'.forged == s.forged
            && s'.vol.queue == s.vol.queue && s'.vol.phase == s.vol.phase
  {
    assert TaskOk(s, t);
    hide WorkInv, Process, Handle;
  }

  lemma ExhaustedKeeps(s: State, t: Task, at: int)
    requires WorkInv(s) && Enabled(s, TaskExhausted(t, at))
    ensures WorkInv(Next(s, TaskExhausted(t, at)))
  {
    assert TaskOk(s, t);
    var mid := s.(vol := s.vol.(tasks := s.vol.tasks - {t}),
                  store := s.store.(work := SetStatus(s.store.work, t.work, FAILED_TERMINAL)));
    forall u | u in mid.vol.tasks ensures TaskOk(mid, u) { assert TaskOk(s, u); }
    forall i | 0 <= i < |mid.vol.queue| ensures ResultOk(mid, mid.vol.queue[i]) {
      assert ResultOk(s, s.vol.queue[i]) && !Carries(s.vol.queue[i], t.work);
    }
    if t.held.kind.Generative? {
      EnqueueKeeps(mid, EventOf(t, Sentinel, at));
    }
  }

  lemma StartStepKeeps(s: State, step: Step)
    requires WorkInv(s) && Enabled(s, step)
    requires step.Recover? || step.DispatchNext? || step.StopEnds? || step.Crash?
    ensures WorkInv(Next(s, step))
  {
    match step
    case Recover(todo) =>
      UnreducedAreHuman(s.store.order, s.store.log);
    case DispatchNext => DispatchNextKeeps(s);
    case StopEnds =>
    case Crash =>
  }

  lemma UnreducedAreHuman(order: seq<Id>, log: map<Id, Entry>)
    ensures forall i :: 0 <= i < |Unreduced(order, log)| ==> Unreduced(order, log)[i].Human?
  {
  }

  lemma DispatchNextTasks(s: State)
    requires WorkInv(s) && Enabled(s, DispatchNext)
    ensures TasksInv(Next(s, DispatchNext))
  {
    var s' := Next(s, DispatchNext);
    forall u | u in s'.vol.tasks ensures TaskOk(s', u) { assert u in s.vol.tasks ==> TaskOk(s, u); }
  }

  lemma DispatchNextResults(s: State)
    requires WorkInv(s) && Enabled(s, DispatchNext)
    ensures ResultsInv(Next(s, DispatchNext))
  {
    var s' := Next(s, DispatchNext);
    forall i | 0 <= i < |s'.vol.queue| ensures ResultOk(s', s'.vol.queue[i]) {
      assert ResultOk(s, s.vol.queue[i]);
    }
  }

  lemma DispatchNextTable(s: State)
    requires WorkInv(s) && Enabled(s, DispatchNext)
    ensures TableInv(Next(s, DispatchNext))
  {
  }

  lemma DispatchNextKeeps(s: State)
    requires WorkInv(s) && Enabled(s, DispatchNext)
    ensures WorkInv(Next(s, DispatchNext))
  {
    hide TasksInv, ResultsInv, TableInv, Next;
    DispatchNextTasks(s);
    DispatchNextResults(s);
    DispatchNextTable(s);
  }

  lemma ReplayKeeps(s: State, ch: Choice, finite: bool)
    requires WorkInv(s) && Enabled(s, ReplayNext(ch, finite))
    ensures WorkInv(Next(s, ReplayNext(ch, finite)))
  {
    PopKeeps(s);
    var ev := s.vol.queue[0];
    var s' := PopReplay(s);
    Relax(Pop(s), s');
    AloneDepends(Pop(s), s', ev);
    AllEnabled(s', ev, ch);
    ProcessKeeps(s', ev, ch, All(s', ev, ch), false, finite);
  }

  lemma AloneDepends(s: State, s': State, ev: Event)
    requires Alone(s, ev) && s'.store == s.store && s'.forged == s.forged
    requires s'.vol.queue == s.vol.queue && s'.vol.tasks == s.vol.tasks
    ensures Alone(s', ev)
  {
  }

  lemma AllEnabled(s: State, ev: Event, ch: Choice)
    requires Fresh(s.store, ch)
    ensures ProcessEnabled(s, ev, ch, All(s, ev, ch), false)
  {
  }

  lemma StartEndsKeeps(s: State, ch: Choice, at: int, finite: bool)
    requires WorkInv(s) && Enabled(s, StartEnds(ch, at, finite))
    ensures WorkInv(Next(s, StartEnds(ch, at, finite)))
    ensures forall w :: w in Next(s, StartEnds(ch, at, finite)).store.work ==>
              !Next(s, StartEnds(ch, at, finite)).store.work[w].status.PENDING?
  {
    var ev := Reconcile(at);
    ProcessKeeps(s, ev, ch, All(s, ev, ch), false, finite);
    Relax(Process(s, ev, ch, All(s, ev, ch), false, finite), Next(s, StartEnds(ch, at, finite)));
  }

  lemma IngressKeeps(s: State, step: Step)
    requires WorkInv(s) && Enabled(s, step)
    requires step.Ingest? || step.AskReconcile? || step.TimerFires? || step.StopBegins?
    ensures WorkInv(Next(s, step))
  {
    match step
    case Ingest(id, at) =>
      if id !in s.store.log {
        var s' := s.(store := s.store.(log := s.store.log[id := Entry(at, false)], order := s.store.order + [id]));
        Relax(s, s');
        EnqueueKeeps(s', Human(id, at));
      }
    case AskReconcile(at) => EnqueueKeeps(s, Reconcile(at));
    case TimerFires(at) =>
      Relax(s, s.(vol := s.vol.(armed := None)));
      EnqueueKeeps(s.(vol := s.vol.(armed := None)), Wake(s.store.sessions, s.vol.armed.value, at));
    case StopBegins => Relax(s, Next(s, step));
  }

  lemma ReduceKeeps(s: State, step: Step)
    requires WorkInv(s) && Enabled(s, step) && (step.Reduce? || step.ReduceFails? || step.DrainNext?)
    ensures WorkInv(Next(s, step))
  {
    PopKeeps(s);
    hide WorkInv, Process, Handle;
    match step
    case Reduce(ch, leased, fault, finite) => ProcessKeeps(Pop(s), s.vol.queue[0], ch, leased, fault, finite);
    case ReduceFails =>
    case DrainNext(ch) =>
      if IsShutdownReducible(s.vol.queue[0]) {
        ProcessKeeps(Pop(s), s.vol.queue[0], ch, {}, true, false);
      }
  }

  lemma WorkNext(s: State, step: Step)
    requires WorkInv(s) && Enabled(s, step)
    ensures WorkInv(Next(s, step))
  {
    hide WorkInv, Next, Enabled;
    match step
    case Ingest(_, _) => IngressKeeps(s, step);
    case AskReconcile(_) => IngressKeeps(s, step);
    case TimerFires(_) => IngressKeeps(s, step);
    case StopBegins => IngressKeeps(s, step);
    case Reduce(_, _, _, _) => ReduceKeeps(s, step);
    case ReduceFails => ReduceKeeps(s, step);
    case DrainNext(_) => ReduceKeeps(s, step);
    case ReplayNext(ch, finite) => ReplayKeeps(s, ch, finite);
    case StartEnds(ch, at, finite) => StartEndsKeeps(s, ch, at, finite);
    case TaskReturns(_, _, _) => TaskStepKeeps(s, step);
    case TaskRetries(_) => TaskStepKeeps(s, step);
    case TaskExhausted(_, _) => TaskStepKeeps(s, step);
    case TaskDies(_) => TaskStepKeeps(s, step);
    case Recover(_) => StartStepKeeps(s, step);
    case DispatchNext => StartStepKeeps(s, step);
    case StopEnds => StartStepKeeps(s, step);
    case Crash => StartStepKeeps(s, step);
  }

  // ---------------------------------------------------------------- what every run keeps

  lemma {:induction false} WorkRun(s: State, run: seq<Step>)
    requires WorkInv(s) && ValidRun(s, run)
    ensures WorkInv(Exec(s, run))
    decreases |run|
  {
    if run != [] {
      WorkNext(s, run[0]);
      WorkRun(Next(s, run[0]), run[1..]);
    }
  }

  // Every row of the work table keeps its identity, and a terminal row keeps everything:
  // no lease, requeue or completion ever reaches it, although none of them checks the status.
  ghost predicate RowKept(d: Store, d': Store, w: Id)
    requires w in d.work
  {
    && w in d'.work && d'.work[w].kind == d.work[w].kind && d'.work[w].cycle == d.work[w].cycle
    && d'.work[w].created == d.work[w].created
    && (Terminal(d.work[w].status) ==> d'.work[w] == d.work[w])
  }

  lemma ProcessOnRow(s: State, ev: Event, ch: Choice, leased: set<Id>, fault: bool, finite: bool, w: Id)
    requires ProcessEnabled(s, ev, ch, leased, fault) && ResultOk(s, ev) && w in s.store.work
    ensures RowKept(s.store, Process(s, ev, ch, leased, fault, finite).store, w)
  {
    if Handle(s, ev, ch).Some? {
      ProcessOnWork(s, ev, ch, leased, fault, finite);
    }
  }

  // The steps that reduce no event.
  lemma QuietOnRow(s: State, step: Step, w: Id)
    requires WorkInv(s) && Enabled(s, step) && w in s.store.work
    requires !step.Reduce? && !step.DrainNext? && !step.ReplayNext? && !step.StartEnds?
    ensures RowKept(s.store, Next(s, step).store, w)
  {
    if step.TaskRetries? || step.TaskExhausted? { assert TaskOk(s, step.task); }
    hide WorkInv, Process, Handle;
  }

  lemma RowNext(s: State, step: Step, w: Id)
    requires WorkInv(s) && Enabled(s, step) && w in s.store.work
    ensures RowKept(s.store, Next(s, step).store, w)
  {
    if s.vol.queue != [] { PopKeeps(s); }
    hide WorkInv, RowKept, Process, Handle, Fresh;
    match step
    case Reduce(ch, leased, fault, finite) => ProcessOnRow(Pop(s), s.vol.queue[0], ch, leased, fault, finite, w);
    case DrainNext(ch) => DrainOnRow(s, ch, w);
    case ReplayNext(ch, finite) =>
      var ev, s' := s.vol.queue[0], PopReplay(s);
      AloneDepends(Pop(s), s', ev);
      AllEnabled(s', ev, ch);
      ProcessOnRow(s', ev, ch, All(s', ev, ch), false, finite, w);
    case StartEnds(ch, at, finite) =>
      AllEnabled(s, Reconcile(at), ch);
      ProcessOnRow(s, Reconcile(at), ch, All(s, Reconcile(at), ch), false, finite, w);
    case _ => QuietOnRow(s, step, w);
  }

  lemma DrainOnRow(s: State, ch: Choice, w: Id)
    requires WorkInv(s) && Enabled(s, DrainNext(ch)) && w in s.store.work
    ensures RowKept(s.store, Next(s, DrainNext(ch)).store, w)
  {
    PopKeeps(s);
    if IsShutdownReducible(s.vol.queue[0]) {
      ProcessOnRow(Pop(s), s.vol.queue[0], ch, {}, true, false, w);
    }
  }

  // How many steps of a run apply a result to item w, that is, turn it COMPLETED.
  ghost function Completions(s: State, run: seq<Step>, w: Id): nat
    requires ValidRun(s, run)
    decreases |run|
  {
    if run == [] then 0
    else
      var s' := Next(s, run[0]);
      (if w in s'.store.work && s'.store.work[w].status.COMPLETED?
          && !(w in s.store.work && s.store.work[w].status.COMPLETED?) then 1 else 0)
      + Completions(s', run[1..], w)
  }

  // A result is applied at most once in any run, through retries, stops and crashes.
  lemma {:induction false} AppliedAtMostOnce(s: State, run: seq<Step>, w: Id)
    requires WorkInv(s) && ValidRun(s, run)
    ensures Completions(s, run, w) <= 1
    ensures w in s.store.work && Terminal(s.store.work[w].status) ==>
              Completions(s, run, w) == 0 && w in Exec(s, run).store.work && Exec(s, run).store.work[w] == s.store.work[w]
    decreases |run|
  {
    if run != [] {
      WorkNext(s, run[0]);
      if w in s.store.work { RowNext(s, run[0], w); }
      AppliedAtMostOnce(Next(s, run[0]), run[1..], w);
    }
  }

  // ---------------------------------------------------------------- attempts in one session

  // The attempts item w may still make before the process ends.
  ghost function Slack(s: State, w: Id): nat {
    if s.vol.phase.Down? || w !in s.store.work then 0
    else if s.store.work[w].status.PENDING? then MAX_ATTEMPTS
    else if exists t :: t in s.vol.tasks && t.work == w && t.attempt <= MAX_ATTEMPTS then
      var t :| t in s.vol.tasks && t.work == w && t.attempt <= MAX_ATTEMPTS;
      MAX_ATTEMPTS - t.attempt
    else 0
  }

  function Spent(s: State, w: Id): nat { if w in s.store.work then s.store.work[w].attempts else 0 }

  // Attempts made plus attempts left: what a session can bring item w to.
  ghost function Total(s: State, w: Id): nat {
    if w in s.store.work then Spent(s, w) + Slack(s, w) else MAX_ATTEMPTS
  }

  lemma TaskSlack(s: State, t: Task)
    requires WorkInv(s) && t in s.vol.tasks
    ensures Slack(s, t.work) == MAX_ATTEMPTS - t.attempt
  {
    assert TaskOk(s, t);
  }

  lemma ProcessOnTotal(s: State, ev: Event, ch: Choice, leased: set<Id>, fault: bool, finite: bool, w: Id)
    requires WorkInv(s) && ProcessEnabled(s, ev, ch, leased, fault) && Alone(s, ev)
    requires !s.vol.phase.Down? && (s.vol.phase.Starting? ==> !fault)
    ensures Total(Process(s, ev, ch, leased, fault, finite), w) <= Total(s, w)
  {
    if Handle(s, ev, ch).Some? {
      ProcessOnWork(s, ev, ch, leased, fault, finite);
      var o, s' := Handle(s, ev, ch).value, Process(s, ev, ch, leased, fault, finite);
      ProcessKeeps(s, ev, ch, leased, fault, finite);
      EffectOnTotal(s, s', ev, ch, o, leased, w);
    }
  }

  lemma EffectOnTotal(s: State, s': State, ev: Event, ch: Choice, o: Outcome, leased: set<Id>, w: Id)
    requires WorkInv(s) && WorkInv(s') && Alone(s, ev) && ProcessEffect(s, s', ev, ch, o, leased)
    requires !s.vol.phase.Down?
    ensures Total(s', w) <= Total(s, w)
  {
    if w in leased {
      var t := Task(w, Leased(o.store.work[w]), 1);
      assert t in s'.vol.tasks;
      TaskSlack(s', t);
    } else if t :| t in s'.vol.tasks && t.work == w {
      assert t in s.vol.tasks;
      TaskSlack(s, t);
      TaskSlack(s', t);
    }
  }

  // Dropping tasks never gives an item more attempts.
  lemma LessSlack(s: State, s': State, w: Id)
    requires WorkInv(s) && s'.vol.tasks <= s.vol.tasks && (s'.vol.phase.Down? <==> s.vol.phase.Down?)
    requires w in s'.store.work ==> w in s.store.work && s'.store.work[w].attempts == s.store.work[w].attempts
    requires w in s'.store.work && s'.store.work[w].status.PENDING? ==> s.store.work[w].status.PENDING?
    requires w in s.store.work ==> w in s'.store.work
    ensures Total(s', w) <= Total(s, w)
  {
    if t :| t in s'.vol.tasks && t.work == w {
      TaskSlack(s, t);
    }
  }

  lemma ReplayTotal(s: State, ch: Choice, finite: bool, w: Id)
    requires WorkInv(s) && Enabled(s, ReplayNext(ch, finite))
    ensures Total(Next(s, ReplayNext(ch, finite)), w) <= Total(s, w)
  {
    PopKeeps(s);
    var ev, s' := s.vol.queue[0], PopReplay(s);
    Relax(Pop(s), s');
    LessSlack(s, s', w);
    AloneDepends(Pop(s), s', ev);
    AllEnabled(s', ev, ch);
    ProcessOnTotal(s', ev, ch, All(s', ev, ch), false, finite, w);
  }

  lemma StartEndsTotal(s: State, ch: Choice, at: int, finite: bool, w: Id)
    requires WorkInv(s) && Enabled(s, StartEnds(ch, at, finite))
    ensures Total(Next(s, StartEnds(ch, at, finite)), w) <= Total(s, w)
  {
    var ev := Reconcile(at);
    AllEnabled(s, ev, ch);
    ProcessOnTotal(s, ev, ch, All(s, ev, ch), false, finite, w);
    ProcessKeeps(s, ev, ch, All(s, ev, ch), false, finite);
    LessSlack(Process(s, ev, ch, All(s, ev, ch), false, finite), Next(s, StartEnds(ch, at, finite)), w);
  }

  lemma DispatchTotal(s: State, w: Id)
    requires WorkInv(s) && Enabled(s, DispatchNext)
    ensures Total(Next(s, DispatchNext), w) <= Total(s, w)
  {
    DispatchNextKeeps(s);
    var s' := Next(s, DispatchNext);
    if w == s.vol.phase.todo[0] {
      TaskSlack(s', Task(w, Leased(s.store.work[w]), 1));
    } else if t :| t in s'.vol.tasks && t.work == w {
      TaskSlack(s, t);
      TaskSlack(s', t);
    }
  }

  lemma TotalNext(s: State, step: Step, w: Id)
    requires WorkInv(s) && Enabled(s, step) && !step.Recover?
    ensures Total(Next(s, step), w) <= Total(s, w)
  {
    match step
    case Reduce(ch, leased, fault, finite) =>
      PopKeeps(s);
      LessSlack(s, Pop(s), w);
      ProcessOnTotal(Pop(s), s.vol.queue[0], ch, leased, fault, finite, w);
    case DrainNext(ch) =>
      PopKeeps(s);
      LessSlack(s, Pop(s), w);
      if IsShutdownReducible(s.vol.queue[0]) {
        ProcessOnTotal(Pop(s), s.vol.queue[0], ch, {}, true, false, w);
      }
    case ReplayNext(ch, finite) => ReplayTotal(s, ch, finite, w);
    case StartEnds(ch, at, finite) => StartEndsTotal(s, ch, at, finite, w);
    case DispatchNext => DispatchTotal(s, w);
    case TaskRetries(t) => RetryTotal(s, t, w);
    case TaskReturns(t, _, _) => LessSlack(s, Next(s, step), w);
    case TaskExhausted(t, _) => ExhaustedTotal(s, t, step.at, w);
    case TaskDies(_) => LessSlack(s, Next(s, step), w);
    case Crash =>
    case StopEnds =>
    case Ingest(_, _) => LessSlack(s, Next(s, step), w);
    case AskReconcile(_) => LessSlack(s, Next(s, step), w);
    case ReduceFails => LessSlack(s, Next(s, step), w);
    case TimerFires(_) => LessSlack(s, Next(s, step), w);
    case StopBegins => LessSlack(s, Next(s, step), w);
  }

  lemma ExhaustedTotal(s: State, t: Task, at: int, w: Id)
    requires WorkInv(s) && Enabled(s, TaskExhausted(t, at))
    ensures Total(Next(s, TaskExhausted(t, at)), w) <= Total(s, w)
  {
    assert TaskOk(s, t);
    LessSlack(s, Next(s, TaskExhausted(t, at)), w);
  }

  lemma RetryTotal(s: State, t: Task, w: Id)
    requires WorkInv(s) && Enabled(s, TaskRetries(t))
    ensures Total(Next(s, TaskRetries(t)), w) <= Total(s, w)
  {
    RetryKeeps(s, t);
    assert TaskOk(s, t);
    var s' := Next(s, TaskRetries(t));
    if w == t.work {
      TaskSlack(s, t);
      TaskSlack(s', Task(w, Leased(s.store.work[w]), t.attempt + 1));
    } else if u :| u in s'.vol.tasks && u.work == w {
      TaskSlack(s, u);
      TaskSlack(s', u);
    }
  }

  // Between two start-ups an item is attempted at most three times.
  lemma {:induction false} ThreeAttemptsPerSession(s: State, run: seq<Step>, w: Id)
    requires WorkInv(s) && ValidRun(s, run)
    requires forall i :: 0 <= i < |run| ==> !run[i].Recover?
    ensures Spent(Exec(s, run), w) <= Total(s, w) <= Spent(s, w) + 3
    decreases |run|
  {
    if run != [] {
      TotalNext(s, run[0], w);
      WorkNext(s, run[0]);
      ThreeAttemptsPerSession(Next(s, run[0]), run[1..], w);
    }
  }
}
