// The service object: its methods update the tables, the queue, the tasks and the timer in place,
// statement by statement as the program does, and each is proved to be the step of `Agent` that
// models it. What the steps keep over every run is therefore kept by these methods.
module AgentService {
  import opened Base
  import opened Agent
  import opened AgentWork
  import opened AgentInbox
  import opened AgentDuty
  import opened AgentRuns

  // Leasing the items one at a time leases the set.
  lemma DispatchOneMore(s: State, done: set<Id>, w: Id)
    requires w !in done
    ensures Dispatch(Dispatch(s, done), {w}) == Dispatch(s, done + {w})
  {
    var mid := Dispatch(s, done);
    assert mid.store.work.Keys == s.store.work.Keys;
    assert Lease(mid.store.work, {w} * mid.store.work.Keys) == Lease(s.store.work, (done + {w}) * s.store.work.Keys);
    assert Dispatch(mid, {w}).vol.tasks == Dispatch(s, done + {w}).vol.tasks;
  }

  lemma DispatchNone(s: State)
    ensures Dispatch(s, {}) == s
  {
    assert Lease(s.store.work, {}) == s.store.work;
  }

  // What a task reports in the end: its answer, or the failure of a generative item.
  function Reports(t: Task, failures: nat, body: Body, at: int): seq<Event> {
    if failures < MAX_ATTEMPTS then [EventOf(t, body, at)]
    else if t.held.kind.Generative? then [EventOf(t, Sentinel, at)] else []
  }

  function Drains(choices: seq<Choice>): seq<Step> { seq(|choices|, i requires 0 <= i < |choices| => DrainNext(choices[i])) }

  class Service {
    const caps: Caps
    // durable tables
    var log: map<Id, Entry>
    var order: seq<Id>
    var turns: seq<Id>
    var work: map<Id, Work>
    var obligations: map<Id, Obligation>
    var rows: map<Id, Row>
    var budget: Budget
    var storedGeneration: nat
    var sessions: nat
    // memory
    var phase: Phase
    var queue: seq<Event>
    var tasks: set<Task>
    var generation: nat
    var armed: Option<nat>
    // history
    ghost var acted: seq<nat>
    ghost var forged: set<Id>

    ghost function Tables(): Store
      reads this
    {
      Store(caps, log, order, turns, work, obligations, rows, budget, storedGeneration, sessions)
    }

    ghost function Now(): State
      reads this
    {
      State(Tables(), Volatile(phase, queue, tasks, generation, armed), acted, forged)
    }

    constructor (caps: Caps)
      ensures Now() == Init(caps)
    {
      this.caps := caps;
      log, order, turns, work := map[], [], [], map[];
      obligations, rows, budget := map[], map[], Budget(map[], map[], map[]);
      storedGeneration, sessions := 0, 0;
      phase, queue, tasks, generation, armed := Down, [], {}, 0, None;
      acted, forged := [], {};
    }

    // ---------------------------------------------------------------- ingress

    // Accept durably first, then enqueue; a repeated id is acknowledged but not queued again.
    method Ingest(id: Id, at: int) returns (newly: bool)
      requires !phase.Down?
      modifies `log, `order, `queue
      ensures Now() == Next(old(Now()), Step.Ingest(id, at))
      ensures newly == (id !in old(log))
    {
      newly := id !in log;
      if newly {
        log := log[id := Entry(at, false)];
        order := order + [id];
        queue := queue + [Human(id, at)];
      }
    }

    // ---------------------------------------------------------------- dispatcher

    method LeaseItem(id: Id)
      modifies `work
      ensures work == Lease(old(work), {id})
    {
      if id in work { work := work[id := Leased(work[id])]; }
    }

    method DispatchItem(id: Id)
      modifies `work, `tasks
      ensures Now() == Dispatch(old(Now()), {id})
    {
      if id !in work {
        assert {id} * work.Keys == {};
        DispatchNone(Now());
        return;
      }
      ghost var live := {id} * work.Keys;
      assert live == {id};
      LeaseItem(id);
      tasks := tasks + {Task(id, work[id], 1)};
    }

    method DispatchItems(ids: set<Id>)
      modifies `work, `tasks
      ensures Now() == Dispatch(old(Now()), ids)
    {
      var rest := ids;
      ghost var done: set<Id> := {};
      DispatchNone(Now());
      while rest != {}
        invariant done !! rest && done + rest == ids
        invariant Now() == Dispatch(old(Now()), done)
        decreases rest
      {
        var id :| id in rest;
        DispatchOneMore(old(Now()), done, id);
        DispatchItem(id);
        rest, done := rest - {id}, done + {id};
      }
      assert done == ids;
    }

    // A failed attempt that may be retried: the same item, leased once more.
    method ReleaseForRetry(t: Task) returns (next: Task)
      requires t in tasks && t.attempt < MAX_ATTEMPTS && t.work in work
      modifies `work, `tasks
      ensures Now() == Next(old(Now()), TaskRetries(t))
      ensures next == Task(t.work, work[t.work], t.attempt + 1) && next in tasks
    {
      LeaseItem(t.work);
      next := Task(t.work, work[t.work], t.attempt + 1);
      tasks := tasks - {t} + {next};
    }

    // The last failed attempt: the item ends, and a generative one reports its failure.
    method FailTerminal(t: Task, at: int)
      requires t in tasks && t.attempt >= MAX_ATTEMPTS
      modifies `work, `tasks, `queue
      ensures Now() == Next(old(Now()), TaskExhausted(t, at))
      ensures work == SetStatus(old(work), t.work, FAILED_TERMINAL) && tasks == old(tasks) - {t}
      ensures queue == old(queue) + if t.held.kind.Generative? then [EventOf(t, Sentinel, at)] else []
    {
      if t.work in work { work := work[t.work := work[t.work].(status := FAILED_TERMINAL)]; }
      tasks := tasks - {t};
      if t.held.kind.Embedding? { return; }
      queue := queue + [LlmResult(t.work, t.held.cycle, Sentinel, at)];
    }

    method Return(t: Task, body: Body, at: int)
      requires t in tasks
      modifies `tasks, `queue, `forged
      ensures Now() == Next(old(Now()), TaskReturns(t, body, at))
      ensures tasks == old(tasks) - {t} && queue == old(queue) + [EventOf(t, body, at)]
      ensures forged == if body.Sentinel? then old(forged) + {t.work} else old(forged)
    {
      tasks := tasks - {t};
      queue := queue + [EventOf(t, body, at)];
      if body.Sentinel? { forged := forged + {t.work}; }
    }

    // The retry loop of one task whose worker raises `failures` times before it would answer:
    // it leases the item again before each further attempt, gives up after the third failure,
    // and always ends with exactly one report, or none for a failed embedding.
    method RunTask(first: Task, failures: nat, body: Body, at: int)
      requires WorkInv(Now()) && first in tasks && first.attempt == 1
      modifies `work, `tasks, `queue, `forged
      ensures tasks == old(tasks) - {first}
      ensures forged == if failures < MAX_ATTEMPTS && body.Sentinel? then old(forged) + {first.work} else old(forged)
      ensures first.work in old(work)
      ensures var tries := if failures < MAX_ATTEMPTS then failures else MAX_ATTEMPTS - 1;
              var status := if failures < MAX_ATTEMPTS then RUNNING else FAILED_TERMINAL;
              var row := old(work)[first.work];
              work == old(work)[first.work := row.(status := status, attempts := row.attempts + tries)]
      ensures queue == old(queue) + Reports(first, failures, body, at)
    {
      hide WorkInv, Agent.Next, Agent.Enabled;
      Alone(first);
      var t, left := first, failures;
      while left > 0 && t.attempt < MAX_ATTEMPTS
        invariant t in tasks && t.work == first.work && 1 <= t.attempt <= MAX_ATTEMPTS
        invariant t.held.kind == first.held.kind && t.held.cycle == first.held.cycle
        invariant 0 <= left && left + t.attempt == failures + 1
        invariant tasks - {t} == old(tasks) - {first}
        invariant forall u :: u in tasks && u.work == t.work ==> u == t
        invariant queue == old(queue) && forged == old(forged)
        invariant work == old(work)[t.work := old(work)[t.work].(attempts := old(work)[t.work].attempts + t.attempt - 1)]
        decreases left
      {
        t := Again(t);
        left := left - 1;
      }
      if left > 0 {
        FailTerminal(t, at);
      } else {
        Return(t, body, at);
      }
    }

    lemma Alone(t: Task)
      requires WorkInv(Now()) && t in tasks
      ensures t.work in work && work[t.work].status.RUNNING?
      ensures work[t.work].kind == t.held.kind && work[t.work].cycle == t.held.cycle
      ensures forall u :: u in tasks && u.work == t.work ==> u == t
    {
      assert TaskOk(Now(), t);
    }

    // `ReleaseForRetry`, seen from a task that is alone on its leased item.
    method Again(t: Task) returns (next: Task)
      requires t in tasks && t.attempt < MAX_ATTEMPTS && t.work in work && work[t.work].status.RUNNING?
      requires work[t.work].kind == t.held.kind && work[t.work].cycle == t.held.cycle
      requires forall u :: u in tasks && u.work == t.work ==> u == t
      modifies `work, `tasks
      ensures work == old(work)[t.work := Leased(old(work)[t.work])]
      ensures next == Task(t.work, work[t.work], t.attempt + 1)
      ensures tasks == old(tasks) - {t} + {next} && (next == t || next !in old(tasks))
    {
      next := ReleaseForRetry(t);
    }

    // ---------------------------------------------------------------- reducer

    // The guard of create_llm_work: a second generative item of a cycle raises.
    method CreateLlmWork(id: Id, cycleType: CycleType, cycle: Id, at: int) returns (ok: bool)
      modifies `work
      ensures ok == !CycleTaken(old(work), cycle)
      ensures work == if ok then old(work)[id := NewWork(Generative(cycleType), cycle, at)] else old(work)
    {
      ok := !(exists w | w in work :: work[w].kind.Generative? && work[w].cycle == cycle);
      if ok { work := work[id := NewWork(Generative(cycleType), cycle, at)]; }
    }

    // `ok` is false when the handler raised; its writes are then still in place, for the
    // transaction around it to undo.
    method OnHuman(id: Id, at: int, ch: Choice) returns (ok: bool, dispatch: set<Id>)
      requires Fresh(Tables(), ch)
      modifies `turns, `work, `obligations, `log
      ensures var r := HandleHuman(old(Tables()), id, at, ch);
              && ok == r.Some?
              && (ok ==> Tables() == r.value.store && dispatch == r.value.dispatch && r.value.reschedule && !r.value.acted)
    {
      ok, dispatch := true, {};
      turns := turns + [id];
      if ch.embed {
        work := work[ch.emb := NewWork(Embedding, ch.cycle, at)];
        dispatch := {ch.emb};
      }
      match ch.path {
        case MandatoryPath =>
          ok := CreateLlmWork(ch.llm, MandatoryCycle, ch.cycle, at);
          if !ok { return; }
          obligations := obligations[ch.llm := Obligation(id, DUTY_PENDING, None)];
          dispatch := dispatch + {ch.llm};
        case OptionalPath =>
          ok := CreateLlmWork(ch.llm, ReactiveCycle, ch.cycle, at);
          if !ok { return; }
          dispatch := dispatch + {ch.llm};
        case SilentPath =>
      }
      log := log[id := Entry(at, true)];  // mark_reduced
    }

    method OnWake(session: nat, g: nat, at: int, ch: Choice) returns (ok: bool, dispatch: set<Id>, reschedule: bool)
      requires Fresh(Tables(), ch)
      modifies `work, `budget, `acted
      ensures var r := HandleWake(old(Tables()), generation, session, g, at, ch);
              && ok == r.Some?
              && (ok ==> && Tables() == r.value.store && dispatch == r.value.dispatch && reschedule == r.value.reschedule
                         && acted == if r.value.acted then old(acted) + [generation] else old(acted))
    {
      ok, dispatch, reschedule := true, {}, false;
      if session != sessions || g != generation { return; }  // stale
      reschedule := true;
      if ch.allowed && Count(budget.callsInDay, Day(at)) < caps.callsPerDay
                    && Count(budget.callsInHour, Hour(at)) < caps.callsPerHour {
        budget := budget.(callsInHour := Charge(budget.callsInHour, Hour(at)),
                          callsInDay := Charge(budget.callsInDay, Day(at)));
        ok := CreateLlmWork(ch.llm, ProactiveCycle, ch.cycle, at);
        if !ok { return; }
        dispatch := {ch.llm};
      }
      acted := acted + [generation];
    }

    method UpdateObligation(w: Id, status: Duty, msg: Option<Id>)
      modifies `obligations
      ensures obligations == if w in old(obligations)
                             then old(obligations)[w := Obligation(old(obligations)[w].source, status, msg)]
                             else old(obligations)
    {
      if w in obligations { obligations := obligations[w := Obligation(obligations[w].source, status, msg)]; }
    }

    // Proposals first, then the reply; the caller completes the item last of all.
    method FinishReply(w: Id, cycle: Id, mandatory: bool, speak: bool, at: int, ch: Choice)
      modifies `work, `obligations, `rows
      ensures work == AddEmbeddings(old(work), ch.made, ch.cycle, at)
      ensures var sends := speak && (mandatory || ch.allowed);
              && rows == (if sends then old(rows)[ch.msg := Row(MANDATORY, cycle, at)] else old(rows))
              && obligations == (if !mandatory then old(obligations)
                                 else if sends then SatisfyDuty(old(obligations), w, ch.msg)
                                 else FailDuty(old(obligations), w))
    {
      work := AddEmbeddings(work, ch.made, ch.cycle, at);
      if mandatory && !speak {
        if w in obligations { UpdateObligation(w, FAILED, obligations[w].satisfiedBy); }
        return;
      }
      if !speak || (!mandatory && !ch.allowed) { return; }
      rows := rows[ch.msg := Row(MANDATORY, cycle, at)];
      if mandatory { UpdateObligation(w, SATISFIED, Some(ch.msg)); }
    }

    method FinishProactiveReply(cycle: Id, speak: bool, at: int, ch: Choice)
      modifies `work, `rows, `budget
      ensures work == AddEmbeddings(old(work), ch.made, ch.cycle, at)
      ensures var sends := speak && ch.allowed
                           && Count(old(budget).messagesInHour, Hour(at)) < caps.messagesPerHour;
              && rows == (if sends then old(rows)[ch.msg := Row(PROACTIVE, cycle, at)] else old(rows))
              && budget == (if sends then old(budget).(messagesInHour := Charge(old(budget).messagesInHour, Hour(at)))
                            else old(budget))
    {
      work := AddEmbeddings(work, ch.made, ch.cycle, at);
      if !speak || !ch.allowed || Count(budget.messagesInHour, Hour(at)) >= caps.messagesPerHour { return; }
      budget := budget.(messagesInHour := Charge(budget.messagesInHour, Hour(at)));
      rows := rows[ch.msg := Row(PROACTIVE, cycle, at)];
    }

    method OnLlmResult(w: Id, cycle: Id, body: Body, at: int, ch: Choice) returns (dispatch: set<Id>, reschedule: bool)
      requires Fresh(Tables(), ch)
      modifies `work, `obligations, `rows, `budget
      ensures var o := HandleLlmResult(old(Tables()), w, cycle, body, at, ch);
              Tables() == o.store && dispatch == o.dispatch && reschedule == o.reschedule && !o.acted
    {
      dispatch, reschedule := {}, false;
      if w !in work || work[w].cycle != cycle || work[w].status == COMPLETED { return; }
      var cycleType := CycleOf(work[w]);
      if body.Sentinel? || body.Unparsable? {
        if body.Unparsable? { work := work[w := work[w].(status := COMPLETED)]; }
        if cycleType.MandatoryCycle? && w in obligations { UpdateObligation(w, FAILED, obligations[w].satisfiedBy); }
        return;
      }
      dispatch := ch.made;
      reschedule := cycleType.ProactiveCycle?;
      ghost var was := work;
      if cycleType.ProactiveCycle? {
        FinishProactiveReply(cycle, body.Speak?, at, ch);
      } else {
        FinishReply(w, cycle, cycleType.MandatoryCycle?, body.Speak?, at, ch);
      }
      CompletedLast(was, w, ch.made, ch.cycle, at);
      hide AddEmbeddings, Fresh;
      work := work[w := work[w].(status := COMPLETED)];
    }

    // Completing an item before or after fresh ones are added makes no difference.
    static lemma CompletedLast(work: map<Id, Work>, w: Id, made: set<Id>, cycle: Id, at: int)
      requires w in work && made !! work.Keys
      ensures w in AddEmbeddings(work, made, cycle, at)
      ensures var after := AddEmbeddings(work, made, cycle, at);
              after[w := after[w].(status := COMPLETED)] == AddEmbeddings(SetStatus(work, w, COMPLETED), made, cycle, at)
    {
      assert AddEmbeddings(work, made, cycle, at)[w] == work[w];
    }

    method OnEmbeddingResult(w: Id, ch: Choice) returns (reschedule: bool)
      modifies `work
      ensures HandleEmbeddingResult(old(Tables()), w, ch) == Outcome(Tables(), {}, reschedule, false)
    {
      if w in work && work[w].status == COMPLETED { return false; }
      if w in work { work := work[w := work[w].(status := COMPLETED)]; }
      reschedule := ch.merged;
    }

    method OnReconcile(at: int, ch: Choice)
      modifies `work
      ensures HandleReconcile(old(Tables()), at, ch) == Outcome(Tables(), ch.made, false, false)
    {
      work := AddEmbeddings(work, ch.made, ch.cycle, at);
    }

    // The transaction around a human turn: a raise puts every table back.
    method ReduceHuman(id: Id, at: int, ch: Choice) returns (r: Option<(set<Id>, bool)>)
      requires Fresh(Tables(), ch)
      modifies `turns, `work, `obligations, `log
      ensures match HandleHuman(old(Tables()), id, at, ch)
              case None => Tables() == old(Tables()) && r == None
              case Some(o) => Tables() == o.store && r == Some((o.dispatch, o.reschedule)) && !o.acted
    {
      hide HandleHuman, Fresh;
      var turns0, work0, obligations0, log0 := turns, work, obligations, log;
      var ok, dispatch := OnHuman(id, at, ch);
      if ok { return Some((dispatch, true)); }
      turns, work, obligations, log, r := turns0, work0, obligations0, log0, None;
    }

    // ... and around a wake.
    method ReduceWake(session: nat, g: nat, at: int, ch: Choice) returns (r: Option<(set<Id>, bool)>)
      requires Fresh(Tables(), ch)
      modifies `work, `budget, `acted
      ensures match HandleWake(old(Tables()), generation, session, g, at, ch)
              case None => Tables() == old(Tables()) && acted == old(acted) && r == None
              case Some(o) =>
                && Tables() == o.store && r == Some((o.dispatch, o.reschedule))
                && acted == (if o.acted then old(acted) + [generation] else old(acted))
    {
      hide HandleWake, Fresh;
      var work0, budget0 := work, budget;
      ghost var acted0 := acted;
      var ok, dispatch, reschedule := OnWake(session, g, at, ch);
      if ok { return Some((dispatch, reschedule)); }
      work, budget, r := work0, budget0, None;
      acted := acted0;
    }

    // One transaction: the handler and the reduced mark commit together or not at all.
    method Reduce(ev: Event, ch: Choice) returns (r: Option<(set<Id>, bool)>)
      requires Fresh(Tables(), ch)
      modifies `turns, `work, `obligations, `log, `rows, `budget, `acted
      ensures match Handle(old(Now()), ev, ch)
              case None => Now() == old(Now()) && r == None
              case Some(o) => Now() == Commit(old(Now()), o) && r == Some((o.dispatch, o.reschedule))
    {
      hide HandleHuman, HandleWake, HandleLlmResult, HandleEmbeddingResult, HandleReconcile, Fresh;
      match ev
      case Human(id, at) => r := ReduceHuman(id, at, ch);
      case Wake(session, g, at) => r := ReduceWake(session, g, at, ch);
      case LlmResult(w, cycle, body, at) =>
        var dispatch, reschedule := OnLlmResult(w, cycle, body, at, ch);
        r := Some((dispatch, reschedule));
      case EmbeddingResult(w, at) =>
        var reschedule := OnEmbeddingResult(w, ch);
        r := Some(({}, reschedule));
      case Reconcile(at) =>
        OnReconcile(at, ch);
        r := Some((ch.made, false));
    }

    // ---------------------------------------------------------------- timer and reducer loop

    method ScheduleWake(finite: bool)
      modifies `storedGeneration, `generation, `armed
      ensures Now() == Schedule(old(Now()), finite)
    {
      var g := generation + 1;
      storedGeneration := g;
      generation := g;
      armed := None;
      if finite { armed := Some(g); }
    }

    method OnWakeFired(at: int)
      requires armed.Some?
      modifies `armed, `queue
      ensures Now() == Next(old(Now()), TimerFires(at))
    {
      queue := queue + [Wake(sessions, armed.value, at)];
      armed := None;
    }

    method Process(ev: Event, ch: Choice, leased: set<Id>, fault: bool, finite: bool)
      requires ProcessEnabled(Now(), ev, ch, leased, fault)
      modifies `turns, `work, `obligations, `log, `rows, `budget, `acted, `tasks, `storedGeneration, `generation, `armed
      ensures Now() == Agent.Process(old(Now()), ev, ch, leased, fault, finite)
    {
      var r := Reduce(ev, ch);
      if r.None? { return; }
      DispatchItems(leased);
      if fault { return; }
      if r.value.1 { ScheduleWake(finite); }
    }

    // One turn of the loop: a reduction that raises is logged and the loop goes on.
    method ReduceNext(ch: Choice, leased: set<Id>, fault: bool, finite: bool)
      requires Enabled(Now(), Step.Reduce(ch, leased, fault, finite))
      modifies this
      ensures Now() == Next(old(Now()), Step.Reduce(ch, leased, fault, finite))
    {
      var ev := queue[0];
      queue := queue[1..];
      Process(ev, ch, leased, fault, finite);
    }

    // ---------------------------------------------------------------- stop

    method BeginStop()
      requires phase.Up?
      modifies `phase, `armed
      ensures Now() == Next(old(Now()), StopBegins)
    {
      phase := Stopping;
      armed := None;
    }

    // The shutdown drain: the whole queue is taken, results are reduced, the rest is dropped.
    method ReduceRemaining(choices: seq<Choice>)
      requires phase.Stopping? && |choices| == |queue| && ValidRun(Now(), Drains(choices))
      modifies this
      ensures Now() == Exec(old(Now()), Drains(choices)) && queue == []
    {
      ghost var start, run := Now(), Drains(choices);
      var i := 0;
      assert run[0..] == run;
      while queue != []
        invariant 0 <= i <= |choices| && |queue| == |choices| - i
        invariant ValidRun(Now(), run[i..]) && Exec(Now(), run[i..]) == Exec(start, run)
        decreases |queue|
      {
        assert run[i..][0] == DrainNext(choices[i]) && run[i..][1..] == run[i + 1..];
        var ev := queue[0];
        queue := queue[1..];
        if IsShutdownReducible(ev) {
          DispatchNone(Commit(Now(), Handle(Now(), ev, choices[i]).value));
          var _ := Reduce(ev, choices[i]);
        }
        i := i + 1;
      }
      assert run[i..] == [];
    }

    // ---------------------------------------------------------------- recovery and start

    // No worker is alive, so every leased item goes back to PENDING.
    method ReclaimLeases()
      modifies `work
      ensures work == Requeued(old(work))
    {
      var left := set w | w in work && work[w].status.RUNNING?;
      while left != {}
        invariant work.Keys == old(work).Keys
        invariant left == set w | w in work && work[w].status.RUNNING?
        invariant forall w :: w in work && w in left ==> work[w] == old(work)[w]
        invariant forall w :: w in work && w !in left ==> work[w] == Requeued(old(work))[w]
        decreases left
      {
        var w :| w in left;
        work := work[w := work[w].(status := PENDING)];
        left := left - {w};
      }
    }

    method PendingItems() returns (todo: seq<Id>)
      ensures Distinct(todo) && forall w :: w in todo <==> w in work && work[w].status.PENDING?
    {
      var left := set w | w in work && work[w].status.PENDING?;
      todo := [];
      while left != {}
        invariant Distinct(todo) && forall w :: w in todo ==> w !in left
        invariant forall w :: w in todo || w in left <==> w in work && work[w].status.PENDING?
        decreases left
      {
        var w :| w in left;
        todo, left := todo + [w], left - {w};
      }
    }

    method Recover() returns (todo: seq<Id>)
      requires phase.Down?
      modifies this
      ensures Enabled(old(Now()), Step.Recover(todo)) && Now() == Next(old(Now()), Step.Recover(todo))
    {
      hide Next, Enabled, Requeued;
      ghost var was := Now();
      OpenSession();
      assert Tables() == Reopened(was.store);
      todo := PendingItems();
      RecoverEnabled(was, todo, work);
      queue := Unreduced(order, log);
      phase := Starting(|queue|, todo);
      tasks, generation, armed := {}, storedGeneration, None;
      RecoverShape(was, todo);
    }

    // A new session, the next generation, and every lease reclaimed.
    method OpenSession()
      modifies `storedGeneration, `sessions, `work
      ensures Tables() == Reopened(old(Tables()))
    {
      storedGeneration := storedGeneration + 1;
      sessions := sessions + 1;
      ReclaimLeases();
    }

    // Reduce, dispatch everything asked for, reschedule.
    method ProcessAll(ev: Event, ch: Choice, finite: bool)
      requires Fresh(Tables(), ch)
      modifies `turns, `work, `obligations, `log, `rows, `budget, `acted, `tasks, `storedGeneration, `generation, `armed
      ensures Now() == Agent.Process(old(Now()), ev, ch, All(old(Now()), ev, ch), false, finite)
    {
      var r := Reduce(ev, ch);
      if r.None? { return; }
      DispatchItems(r.value.0);
      if r.value.1 { ScheduleWake(finite); }
    }

    method ReplayOne(ch: Choice, finite: bool)
      requires Enabled(Now(), ReplayNext(ch, finite))
      modifies this
      ensures Now() == Next(old(Now()), ReplayNext(ch, finite))
      ensures phase == Starting(old(phase).replay - 1, old(phase).todo)
    {
      var ev := queue[0];
      queue := queue[1..];
      phase := Starting(phase.replay - 1, phase.todo);
      assert Now() == PopReplay(old(Now()));
      ProcessAll(ev, ch, finite);
    }

    method DispatchOne()
      requires Enabled(Now(), DispatchNext)
      modifies `phase, `work, `tasks
      ensures Now() == Next(old(Now()), DispatchNext)
      ensures phase == Starting(0, old(phase).todo[1..])
    {
      var id := phase.todo[0];
      phase := Starting(0, phase.todo[1..]);
      DispatchItem(id);
    }

    // The end of a start: one reconciliation, and the first schedule.
    method Reconcile(ch: Choice, at: int, finite: bool)
      requires Enabled(Now(), StartEnds(ch, at, finite))
      modifies this
      ensures Now() == Next(old(Now()), StartEnds(ch, at, finite))
    {
      StartEndsShape(Now(), ch, at, finite);
      hide Handle, Agent.Process, All, Agent.Next, Agent.Enabled, Fresh;
      ProcessAll(Event.Reconcile(at), ch, finite);
      phase := Up;
      ScheduleWake(finite);
    }

    // After recovery: replay, redispatch, reconcile, arm the timer. An uninterrupted start is the
    // run of those steps; it ends up, with no item left PENDING.
    method Launch(run: seq<Step>)
      requires phase.Starting? && Inv(Now()) && ValidRun(Now(), run) && IsLaunch(run, phase)
      modifies this
      ensures Now() == Exec(old(Now()), run) && Inv(Now())
      ensures phase.Up? && forall w :: w in work ==> !work[w].status.PENDING?
    {
      InvRun(Now(), run);
      LaunchEnds(Now(), run);
      var rest := ReplayAll(run);
      rest := DispatchAll(rest);
      assert rest[1..] == [];
      Reconcile(rest[0].ch, rest[0].at, rest[0].finite);
    }

    method ReplayAll(run: seq<Step>) returns (rest: seq<Step>)
      requires phase.Starting? && ValidRun(Now(), run) && IsLaunch(run, phase)
      modifies this
      ensures phase.Starting? && phase.replay == 0 && IsLaunch(rest, phase)
      ensures ValidRun(Now(), rest) && Exec(Now(), rest) == Exec(old(Now()), run)
    {
      hide Handle, Agent.Process;
      rest := run;
      while phase.replay > 0
        invariant phase.Starting? && IsLaunch(rest, phase)
        invariant ValidRun(Now(), rest) && Exec(Now(), rest) == Exec(old(Now()), run)
        decreases phase.replay
      {
        ReplayOne(rest[0].ch, rest[0].finite);
        rest := rest[1..];
      }
    }

    method DispatchAll(run: seq<Step>) returns (rest: seq<Step>)
      requires phase.Starting? && phase.replay == 0 && ValidRun(Now(), run) && IsLaunch(run, phase)
      modifies `phase, `work, `tasks
      ensures phase == Starting(0, []) && IsLaunch(rest, phase)
      ensures ValidRun(Now(), rest) && Exec(Now(), rest) == Exec(old(Now()), run)
    {
      rest := run;
      while phase.todo != []
        invariant phase.Starting? && phase.replay == 0 && IsLaunch(rest, phase)
        invariant ValidRun(Now(), rest) && Exec(Now(), rest) == Exec(old(Now()), run)
        decreases |phase.todo|
      {
        DispatchOne();
        rest := rest[1..];
      }
    }
  }

  function Reopened(d: Store): Store {
    d.(work := Requeued(d.work), generation := d.generation + 1, sessions := d.sessions + 1)
  }

  lemma RecoverShape(s: State, todo: seq<Id>)
    requires Enabled(s, Recover(todo))
    ensures var d := Reopened(s.store);
            var replay := Unreduced(d.order, d.log);
            Next(s, Recover(todo)) == s.(store := d, vol := Volatile(Starting(|replay|, todo), replay, {}, d.generation, None))
  {
  }

  lemma RecoverEnabled(s: State, todo: seq<Id>, work: map<Id, Work>)
    requires s.vol.phase.Down? && work == Requeued(s.store.work)
    requires Distinct(todo) && forall w :: w in todo <==> w in work && work[w].status.PENDING?
    ensures Enabled(s, Recover(todo))
  {
    PendingAfterReclaim(s.store.work, work);
  }

  lemma PendingAfterReclaim(work: map<Id, Work>, work': map<Id, Work>)
    requires work' == Requeued(work)
    ensures forall w :: w in work' && work'[w].status.PENDING? <==> w in work && work[w].status in {PENDING, RUNNING}
  {
  }

  // The order of an uninterrupted start: every replayed event, then every recovered item, then
  // the reconciliation that ends it.
  ghost predicate IsLaunch(run: seq<Step>, phase: Phase)
    requires phase.Starting?
  {
    var k, n := phase.replay, phase.replay + |phase.todo|;
    && |run| == n + 1
    && (forall i :: 0 <= i < k ==> run[i].ReplayNext?)
    && (forall i :: k <= i < n ==> run[i].DispatchNext?)
    && run[n].StartEnds?
  }

  // An uninterrupted start ends up, and leaves no item waiting for a later start.
  lemma {:induction false} LaunchEnds(s: State, run: seq<Step>)
    requires WorkInv(s) && s.vol.phase.Starting? && ValidRun(s, run) && IsLaunch(run, s.vol.phase)
    ensures var s' := Exec(s, run);
            s'.vol.phase.Up? && forall w :: w in s'.store.work ==> !s'.store.work[w].status.PENDING?
    decreases |run|
  {
    hide WorkInv, Next, Enabled;
    if |run| == 1 {
      StartEndsKeeps(s, run[0].ch, run[0].at, run[0].finite);
      LaunchPhase(s, run[0]);
      assert run[1..] == [];
    } else {
      WorkNext(s, run[0]);
      LaunchPhase(s, run[0]);
      LaunchEnds(Next(s, run[0]), run[1..]);
    }
  }

  lemma StartEndsShape(s: State, ch: Choice, at: int, finite: bool)
    requires Enabled(s, StartEnds(ch, at, finite))
    ensures Fresh(s.store, ch)
    ensures var ev := Event.Reconcile(at);
            var s' := Process(s, ev, ch, All(s, ev, ch), false, finite);
            Next(s, StartEnds(ch, at, finite)) == Schedule(s'.(vol := s'.vol.(phase := Up)), finite)
  {
  }

  lemma LaunchPhase(s: State, step: Step)
    requires s.vol.phase.Starting? && Enabled(s, step)
    ensures step.ReplayNext? ==> Next(s, step).vol.phase == Starting(s.vol.phase.replay - 1, s.vol.phase.todo)
    ensures step.DispatchNext? ==> Next(s, step).vol.phase == Starting(s.vol.phase.replay, s.vol.phase.todo[1..])
    ensures step.StartEnds? ==> Next(s, step).vol.phase == Up
  {
  }
}
