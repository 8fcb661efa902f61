// The durable agent as a transition system with crashes.
//
// Durable tables (`Store`) survive a crash; the event queue, the worker tasks, the armed timer
// and the in-memory generation (`Volatile`) do not. `Next` is one atomic step: a commit of the
// reducer, one bookkeeping transaction of a worker task, one recovery action, or a crash.
// Everything a model, a clock or a random draw decides is an argument of the step.
module Agent {
  import opened Base

  // ---------------------------------------------------------------- tables

  datatype CycleType = MandatoryCycle | ReactiveCycle | ProactiveCycle
  datatype Kind = Generative(cycleType: CycleType) | Embedding
  datatype Status = PENDING | RUNNING | COMPLETED | FAILED_TERMINAL
  datatype Work = Work(kind: Kind, cycle: Id, created: int, status: Status, attempts: nat)

  datatype Duty = DUTY_PENDING | SATISFIED | FAILED
  // A response obligation, keyed by the work item that must discharge it.
  datatype Obligation = Obligation(source: Id, status: Duty, satisfiedBy: Option<Id>)

  datatype OutKind = MANDATORY | PROACTIVE
  // An outbound row together with the cycle recorded by its action row.
  datatype Row = Row(kind: OutKind, cycle: Id, created: int)

  // An accepted human message: its stamp, and whether its reduction has committed.
  datatype Entry = Entry(at: int, reduced: bool)

  datatype Caps = Caps(callsPerDay: nat, callsPerHour: nat, messagesPerHour: nat)
  datatype Budget = Budget(callsInDay: map<int, nat>, callsInHour: map<int, nat>, messagesInHour: map<int, nat>)

  datatype Store = Store(
    caps: Caps,
    log: map<Id, Entry>,       // accepted human messages
    order: seq<Id>,            // ... in acceptance order
    turns: seq<Id>,            // human rows of the conversation record, by event id
    work: map<Id, Work>,
    obligations: map<Id, Obligation>,
    rows: map<Id, Row>,
    budget: Budget,
    generation: nat,           // stored scheduler generation
    sessions: nat)             // runtime sessions opened so far; the last one is current

  // ---------------------------------------------------------------- events

  // What a generative result carries. `Sentinel` is a body holding the reserved worker-error key.
  datatype Body = Sentinel | Unparsable | Speak | NonSpeak

  datatype Event =
    | Human(id: Id, at: int)
    | Wake(session: nat, generation: nat, at: int)
    | LlmResult(work: Id, cycle: Id, body: Body, at: int)
    | EmbeddingResult(work: Id, at: int)
    | Reconcile(at: int)

  // A worker task: the row it reloaded when it leased the item, and its own attempt number.
  datatype Task = Task(work: Id, held: Work, attempt: nat)

  // While starting, the first `replay` queued events are the recovered ones and `todo` holds the
  // recovered work still to be dispatched.
  datatype Phase = Down | Starting(replay: nat, todo: seq<Id>) | Up | Stopping

  datatype Volatile = Volatile(
    phase: Phase, queue: seq<Event>, tasks: set<Task>, generation: nat, armed: Option<nat>)

  // `acted` records the generation of every wake the handler did not drop as stale, and `forged`
  // the items for which a worker *returned* a body holding the reserved worker-error key.
  datatype State = State(store: Store, vol: Volatile, acted: seq<nat>, forged: set<Id>)

  const MAX_ATTEMPTS: nat := 3
  const HOUR: int := 3600
  const HOURS_PER_DAY: int := 24

  function Hour(at: int): int { at / HOUR }
  function Day(at: int): int { Hour(at) / HOURS_PER_DAY }

  function Nothing(): Volatile { Volatile(Down, [], {}, 0, None) }

  function Init(caps: Caps): State {
    State(Store(caps, map[], [], [], map[], map[], map[], Budget(map[], map[], map[]), 0, 0), Nothing(), [], {})
  }

  // ---------------------------------------------------------------- store operations

  function Count(m: map<int, nat>, window: int): nat { if window in m then m[window] else 0 }

  function Charge(m: map<int, nat>, window: int): map<int, nat> { m[window := Count(m, window) + 1] }

  function NewWork(kind: Kind, cycle: Id, at: int): Work { Work(kind, cycle, at, PENDING, 0) }

  function Leased(w: Work): Work { w.(status := RUNNING, attempts := w.attempts + 1) }

  function Lease(work: map<Id, Work>, ids: set<Id>): map<Id, Work> {
    map w | w in work :: if w in ids then Leased(work[w]) else work[w]
  }

  function SetStatus(work: map<Id, Work>, id: Id, status: Status): map<Id, Work> {
    if id in work then work[id := work[id].(status := status)] else work
  }

  function Requeued(work: map<Id, Work>): map<Id, Work> {
    map w | w in work :: if work[w].status == RUNNING then work[w].(status := PENDING) else work[w]
  }

  function AddEmbeddings(work: map<Id, Work>, ids: set<Id>, cycle: Id, at: int): map<Id, Work> {
    work + map w | w in ids :: NewWork(Embedding, cycle, at)
  }

  predicate CycleTaken(work: map<Id, Work>, cycle: Id) {
    exists w | w in work :: work[w].kind.Generative? && work[w].cycle == cycle
  }

  function FailDuty(o: map<Id, Obligation>, w: Id): map<Id, Obligation> {
    if w in o then o[w := o[w].(status := FAILED)] else o
  }

  function SatisfyDuty(o: map<Id, Obligation>, w: Id, msg: Id): map<Id, Obligation> {
    if w in o then o[w := o[w].(status := SATISFIED, satisfiedBy := Some(msg))] else o
  }

  // ---------------------------------------------------------------- handlers

  datatype Path = SilentPath | MandatoryPath | OptionalPath

  // The draws of one reduction: classification and gates, and the fresh ids it would mint.
  datatype Choice = Choice(
    path: Path, embed: bool,   // human turn
    allowed: bool,             // every gate except the budgets, and candidate selection
    merged: bool,              // an embedding result that merged a topic
    cycle: Id, llm: Id, emb: Id, made: set<Id>, msg: Id)

  predicate Fresh(d: Store, ch: Choice) {
    && ch.llm !in d.work && ch.emb !in d.work && ch.llm != ch.emb
    && ch.made !! d.work.Keys && ch.llm !in ch.made && ch.emb !in ch.made
    && ch.msg !in d.rows
  }

  // What a committed reduction asks the service to do next.
  datatype Outcome = Outcome(store: Store, dispatch: set<Id>, reschedule: bool, acted: bool)

  function Unchanged(d: Store): Outcome { Outcome(d, {}, false, false) }

  // A human turn. `None` is the guard of create_llm_work raising, which rolls the turn back.
  function HandleHuman(d: Store, id: Id, at: int, ch: Choice): Option<Outcome> {
    var work := if ch.embed then d.work[ch.emb := NewWork(Embedding, ch.cycle, at)] else d.work;
    var emb := if ch.embed then {ch.emb} else {};
    var heard := d.(turns := d.turns + [id], log := d.log[id := Entry(at, true)], work := work);
    if ch.path.SilentPath? then Some(Outcome(heard, emb, true, false))
    else if CycleTaken(work, ch.cycle) then None
    else if ch.path.OptionalPath? then
      Some(Outcome(heard.(work := work[ch.llm := NewWork(Generative(ReactiveCycle), ch.cycle, at)]),
                   emb + {ch.llm}, true, false))
    else
      Some(Outcome(heard.(work := work[ch.llm := NewWork(Generative(MandatoryCycle), ch.cycle, at)],
                          obligations := d.obligations[ch.llm := Obligation(id, DUTY_PENDING, None)]),
                   emb + {ch.llm}, true, false))
  }

  function HandleWake(d: Store, current: nat, session: nat, generation: nat, at: int, ch: Choice): Option<Outcome> {
    if session != d.sessions || generation != current then Some(Unchanged(d))
    else if !ch.allowed
            || Count(d.budget.callsInDay, Day(at)) >= d.caps.callsPerDay
            || Count(d.budget.callsInHour, Hour(at)) >= d.caps.callsPerHour then
      Some(Outcome(d, {}, true, true))
    else if CycleTaken(d.work, ch.cycle) then None
    else
      var budget := d.budget.(callsInDay := Charge(d.budget.callsInDay, Day(at)),
                              callsInHour := Charge(d.budget.callsInHour, Hour(at)));
      Some(Outcome(d.(budget := budget, work := d.work[ch.llm := NewWork(Generative(ProactiveCycle), ch.cycle, at)]),
                   {ch.llm}, true, true))
  }

  // The cycle type stored in the snapshot; an item without one counts as reactive.
  function CycleOf(w: Work): CycleType {
    if w.kind.Generative? then w.kind.cycleType else ReactiveCycle
  }

  function Fail(d: Store, w: Id): Store
    requires w in d.work
  {
    if CycleOf(d.work[w]).MandatoryCycle?
    then d.(obligations := FailDuty(d.obligations, w)) else d
  }

  // Proposals that enrich a memory create embedding work in the same transaction.
  function ApplyProposals(d: Store, at: int, ch: Choice): Store {
    d.(work := AddEmbeddings(d.work, ch.made, ch.cycle, at))
  }

  function FinishMandatory(d: Store, w: Id, cycle: Id, speak: bool, at: int, ch: Choice): Outcome
    requires w in d.work
  {
    var applied := ApplyProposals(d, at, ch);
    if !speak then Outcome(applied.(obligations := FailDuty(d.obligations, w)), ch.made, false, false)
    else Outcome(applied.(rows := d.rows[ch.msg := Row(MANDATORY, cycle, at)],
                          obligations := SatisfyDuty(d.obligations, w, ch.msg)),
                 ch.made, false, false)
  }

  function FinishReactive(d: Store, cycle: Id, speak: bool, at: int, ch: Choice): Outcome {
    var applied := ApplyProposals(d, at, ch);
    if !speak || !ch.allowed then Outcome(applied, ch.made, false, false)
    else Outcome(applied.(rows := d.rows[ch.msg := Row(MANDATORY, cycle, at)]), ch.made, false, false)
  }

  function FinishProactive(d: Store, cycle: Id, speak: bool, at: int, ch: Choice): Outcome {
    var applied := ApplyProposals(d, at, ch);
    if !speak || !ch.allowed || Count(d.budget.messagesInHour, Hour(at)) >= d.caps.messagesPerHour
    then Outcome(applied, ch.made, true, false)
    else Outcome(applied.(rows := d.rows[ch.msg := Row(PROACTIVE, cycle, at)],
                          budget := d.budget.(messagesInHour := Charge(d.budget.messagesInHour, Hour(at)))),
                 ch.made, true, false)
  }

  function HandleLlmResult(d: Store, w: Id, cycle: Id, body: Body, at: int, ch: Choice): Outcome {
    if w !in d.work || d.work[w].cycle != cycle || d.work[w].status == COMPLETED then Unchanged(d)
    else if body.Sentinel? then Outcome(Fail(d, w), {}, false, false)
    else
      var done := d.(work := SetStatus(d.work, w, COMPLETED));
      if body.Unparsable? then Outcome(Fail(done, w), {}, false, false)
      else match CycleOf(d.work[w])
        case MandatoryCycle => FinishMandatory(done, w, cycle, body.Speak?, at, ch)
        case ReactiveCycle => FinishReactive(done, cycle, body.Speak?, at, ch)
        case ProactiveCycle => FinishProactive(done, cycle, body.Speak?, at, ch)
  }

  function HandleEmbeddingResult(d: Store, w: Id, ch: Choice): Outcome {
    if w in d.work && d.work[w].status == COMPLETED then Unchanged(d)
    else Outcome(d.(work := SetStatus(d.work, w, COMPLETED)), {}, ch.merged, false)
  }

  function HandleReconcile(d: Store, at: int, ch: Choice): Outcome {
    Outcome(d.(work := AddEmbeddings(d.work, ch.made, ch.cycle, at)), ch.made, false, false)
  }

  function Handle(s: State, ev: Event, ch: Choice): Option<Outcome> {
    match ev
    case Human(id, at) => HandleHuman(s.store, id, at, ch)
    case Wake(session, generation, at) => HandleWake(s.store, s.vol.generation, session, generation, at, ch)
    case LlmResult(w, cycle, body, at) => Some(HandleLlmResult(s.store, w, cycle, body, at, ch))
    case EmbeddingResult(w, at) => Some(HandleEmbeddingResult(s.store, w, ch))
    case Reconcile(at) => Some(HandleReconcile(s.store, at, ch))
  }

  // ---------------------------------------------------------------- service operations

  function Pop(s: State): State
    requires s.vol.queue != []
  {
    s.(vol := s.vol.(queue := s.vol.queue[1..]))
  }

  function PopReplay(s: State): State
    requires s.vol.queue != [] && s.vol.phase.Starting? && s.vol.phase.replay > 0
  {
    Pop(s).(vol := Pop(s).vol.(phase := s.vol.phase.(replay := s.vol.phase.replay - 1)))
  }

  function Enqueue(s: State, ev: Event): State {
    s.(vol := s.vol.(queue := s.vol.queue + [ev]))
  }

  // Commit an outcome: the tables change together, nothing else does.
  function Commit(s: State, o: Outcome): State {
    s.(store := o.store, acted := if o.acted then s.acted + [s.vol.generation] else s.acted)
  }

  // Lease each item and start its worker task.
  function Dispatch(s: State, ids: set<Id>): State {
    var live := ids * s.store.work.Keys;
    s.(store := s.store.(work := Lease(s.store.work, live)),
       vol := s.vol.(tasks := s.vol.tasks + set w | w in live :: Task(w, Leased(s.store.work[w]), 1)))
  }

  // A new schedule is a new generation, stored and in memory; `finite` says whether the sampled
  // delay arms the timer at all.
  function Schedule(s: State, finite: bool): State {
    var g := s.vol.generation + 1;
    s.(store := s.store.(generation := g),
       vol := s.vol.(generation := g, armed := if finite then Some(g) else None))
  }

  // Reduce one event and carry out what it asks for. `leased` are the items dispatched before a
  // bookkeeping fault, if there is one; a fault also skips the reschedule.
  function Process(s: State, ev: Event, ch: Choice, leased: set<Id>, fault: bool, finite: bool): State {
    match Handle(s, ev, ch)
    case None => s
    case Some(o) =>
      var after := Dispatch(Commit(s, o), leased);
      if o.reschedule && !fault then Schedule(after, finite) else after
  }

  predicate ProcessEnabled(s: State, ev: Event, ch: Choice, leased: set<Id>, fault: bool) {
    && Fresh(s.store, ch)
    && match Handle(s, ev, ch)
       case None => true
       case Some(o) => leased <= o.dispatch && (!fault ==> leased == o.dispatch)
  }

  // The accepted messages not yet reduced, oldest first.
  function Unreduced(order: seq<Id>, log: map<Id, Entry>): seq<Event> {
    if order == [] then []
    else
      var rest := Unreduced(order[1..], log);
      if order[0] in log && !log[order[0]].reduced then [Human(order[0], log[order[0]].at)] + rest else rest
  }

  predicate IsShutdownReducible(ev: Event) { ev.LlmResult? || ev.EmbeddingResult? }

  // ---------------------------------------------------------------- steps

  datatype Step =
    // ingress
    | Ingest(id: Id, at: int)
    | AskReconcile(at: int)
    // reducer loop
    | Reduce(ch: Choice, leased: set<Id>, fault: bool, finite: bool)
    | ReduceFails
    // worker tasks
    | TaskReturns(task: Task, body: Body, at: int)
    | TaskRetries(task: Task)
    | TaskExhausted(task: Task, at: int)
    | TaskDies(task: Task)
    // timer
    | TimerFires(at: int)
    // clean stop
    | StopBegins
    | DrainNext(ch: Choice)
    | StopEnds
    // crash and start-up
    | Crash
    | Recover(todo: seq<Id>)
    | ReplayNext(ch: Choice, finite: bool)
    | DispatchNext
    | StartEnds(ch: Choice, at: int, finite: bool)

  ghost predicate Enabled(s: State, step: Step) {
    match step
    case Ingest(_, _) => !s.vol.phase.Down?
    case AskReconcile(_) => !s.vol.phase.Down?
    case Reduce(ch, leased, fault, _) =>
      s.vol.phase.Up? && s.vol.queue != [] && ProcessEnabled(Pop(s), s.vol.queue[0], ch, leased, fault)
    case ReduceFails => s.vol.phase.Up? && s.vol.queue != []
    case TaskReturns(t, _, _) => t in s.vol.tasks
    case TaskRetries(t) => t in s.vol.tasks && t.attempt < MAX_ATTEMPTS
    case TaskExhausted(t, _) => t in s.vol.tasks && t.attempt >= MAX_ATTEMPTS
    case TaskDies(t) => t in s.vol.tasks
    case TimerFires(_) => s.vol.armed.Some?
    case StopBegins => s.vol.phase.Up?
    case DrainNext(ch) =>
      s.vol.phase.Stopping? && s.vol.tasks == {} && s.vol.queue != [] && Fresh(s.store, ch)
    case StopEnds => s.vol.phase.Stopping? && s.vol.tasks == {} && s.vol.queue == []
    case Crash => !s.vol.phase.Down?
    case Recover(todo) =>
      && s.vol.phase.Down? && Distinct(todo)
      && (forall w :: w in todo <==> w in s.store.work && s.store.work[w].status in {PENDING, RUNNING})
    case ReplayNext(ch, _) =>
      && s.vol.phase.Starting? && s.vol.phase.replay > 0 && s.vol.queue != []
      && Fresh(s.store, ch) && Handle(s, s.vol.queue[0], ch).Some?
    case DispatchNext => s.vol.phase.Starting? && s.vol.phase.replay == 0 && s.vol.phase.todo != []
    case StartEnds(ch, at, _) =>
      s.vol.phase.Starting? && s.vol.phase.replay == 0 && s.vol.phase.todo == [] && Fresh(s.store, ch)
  }

  function EventOf(t: Task, body: Body, at: int): Event {
    if t.held.kind.Embedding? then EmbeddingResult(t.work, at) else LlmResult(t.work, t.held.cycle, body, at)
  }

  function All(s: State, ev: Event, ch: Choice): set<Id> {
    var o := Handle(s, ev, ch);
    if o.Some? then o.value.dispatch else {}
  }

  function Next(s: State, step: Step): State
    requires Enabled(s, step)
  {
    match step
    case Ingest(id, at) =>
      if id in s.store.log then s
      else Enqueue(s.(store := s.store.(log := s.store.log[id := Entry(at, false)], order := s.store.order + [id])), Human(id, at))
    case AskReconcile(at) => Enqueue(s, Reconcile(at))
    case Reduce(ch, leased, fault, finite) => Process(Pop(s), s.vol.queue[0], ch, leased, fault, finite)
    case ReduceFails => Pop(s)
    case TaskReturns(t, body, at) =>
      Enqueue(s.(vol := s.vol.(tasks := s.vol.tasks - {t}),
                 forged := if body.Sentinel? then s.forged + {t.work} else s.forged), EventOf(t, body, at))
    case TaskRetries(t) =>
      var rest := s.(vol := s.vol.(tasks := s.vol.tasks - {t}),
                     store := s.store.(work := Lease(s.store.work, {t.work})));
      if t.work !in s.store.work then rest
      else rest.(vol := rest.vol.(tasks := rest.vol.tasks + {Task(t.work, Leased(s.store.work[t.work]), t.attempt + 1)}))
    case TaskExhausted(t, at) =>
      var s' := s.(vol := s.vol.(tasks := s.vol.tasks - {t}),
                   store := s.store.(work := SetStatus(s.store.work, t.work, FAILED_TERMINAL)));
      if t.held.kind.Generative? then Enqueue(s', EventOf(t, Sentinel, at)) else s'
    case TaskDies(t) => s.(vol := s.vol.(tasks := s.vol.tasks - {t}))
    case TimerFires(at) =>
      Enqueue(s.(vol := s.vol.(armed := None)), Wake(s.store.sessions, s.vol.armed.value, at))
    case StopBegins => s.(vol := s.vol.(phase := Stopping, armed := None))
    case DrainNext(ch) =>
      var ev := s.vol.queue[0];
      if IsShutdownReducible(ev) then Process(Pop(s), ev, ch, {}, true, false) else Pop(s)
    case StopEnds => s.(vol := Nothing())
    case Crash => s.(vol := Nothing())
    case Recover(todo) =>
      var d := s.store.(work := Requeued(s.store.work), generation := s.store.generation + 1,
                        sessions := s.store.sessions + 1);
      var replay := Unreduced(d.order, d.log);
      s.(store := d, vol := Volatile(Starting(|replay|, todo), replay, {}, d.generation, None))
    case ReplayNext(ch, finite) =>
      Process(PopReplay(s), s.vol.queue[0], ch, All(PopReplay(s), s.vol.queue[0], ch), false, finite)
    case DispatchNext =>
      var todo := s.vol.phase.todo;
      Dispatch(s.(vol := s.vol.(phase := s.vol.phase.(todo := todo[1..]))), {todo[0]})
    case StartEnds(ch, at, finite) =>
      var s' := Process(s, Reconcile(at), ch, All(s, Reconcile(at), ch), false, finite);
      Schedule(s'.(vol := s'.vol.(phase := Up)), finite)
  }

  ghost predicate ValidRun(s: State, run: seq<Step>)
    decreases |run|
  {
    run == [] || (Enabled(s, run[0]) && ValidRun(Next(s, run[0]), run[1..]))
  }

  function Exec(s: State, run: seq<Step>): State
    requires ValidRun(s, run)
    decreases |run|
  {
    if run == [] then s else Exec(Next(s, run[0]), run[1..])
  }
}
