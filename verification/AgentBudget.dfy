// Budgets: every window stays within its cap, and every counter equals what it stands for.
module AgentBudget {
  import opened Base
  import opened Agent
  import opened AgentWork

  function Calls(work: map<Id, Work>, hour: int): set<Id> {
    set w | w in work && work[w].kind == Generative(ProactiveCycle) && Hour(work[w].created) == hour
  }

  function Messages(rows: map<Id, Row>, hour: int): set<Id> {
    set m | m in rows && rows[m].kind.PROACTIVE? && Hour(rows[m].created) == hour
  }

  // The counts of the first k hours of a day.
  function HoursOf(m: map<int, nat>, day: int, k: nat): nat {
    if k == 0 then 0 else HoursOf(m, day, k - 1) + Count(m, HOURS_PER_DAY * day + k - 1)
  }

  // An hour's call count is the number of proactive items created in it.
  ghost predicate CallsInv(hours: map<int, nat>, work: map<Id, Work>) {
    forall h :: Count(hours, h) == |Calls(work, h)|
  }

  // An hour's message count is the number of proactive rows created in it.
  ghost predicate MessagesInv(hours: map<int, nat>, rows: map<Id, Row>) {
    forall h :: Count(hours, h) == |Messages(rows, h)|
  }

  // A day's call count is the sum of its hours.
  ghost predicate DaysInv(days: map<int, nat>, hours: map<int, nat>) {
    forall day, k :: k == HOURS_PER_DAY ==> Count(days, day) == HoursOf(hours, day, k)
  }

  ghost predicate Within(m: map<int, nat>, cap: nat) { forall window :: Count(m, window) <= cap }

  ghost predicate BudgetInv(d: Store) {
    && CallsInv(d.budget.callsInHour, d.work) && MessagesInv(d.budget.messagesInHour, d.rows)
    && DaysInv(d.budget.callsInDay, d.budget.callsInHour)
    && Within(d.budget.callsInHour, d.caps.callsPerHour) && Within(d.budget.callsInDay, d.caps.callsPerDay)
    && Within(d.budget.messagesInHour, d.caps.messagesPerHour)
  }

  lemma {:induction false} ChargeHour(m: map<int, nat>, hour: int, day: int, k: nat)
    ensures HoursOf(Charge(m, hour), day, k)
            == HoursOf(m, day, k) + if HOURS_PER_DAY * day <= hour < HOURS_PER_DAY * day + k then 1 else 0
  {
    if k > 0 { ChargeHour(m, hour, day, k - 1); }
  }

  // The tables a budget speaks of keep their rows, and gain none it counts.
  ghost predicate NothingCharged(d: Store, d': Store) {
    && d'.budget == d.budget && d'.caps == d.caps
    && (forall w :: w in d.work ==> w in d'.work && d'.work[w].kind == d.work[w].kind && d'.work[w].created == d.work[w].created)
    && (forall w :: w in d'.work && w !in d.work ==> d'.work[w].kind != Generative(ProactiveCycle))
    && (forall m :: m in d.rows ==> m in d'.rows && d'.rows[m] == d.rows[m])
    && (forall m :: m in d'.rows && m !in d.rows ==> !d'.rows[m].kind.PROACTIVE?)
  }

  lemma NothingChargedKeeps(d: Store, d': Store)
    requires BudgetInv(d) && NothingCharged(d, d')
    ensures BudgetInv(d')
  {
    forall h ensures Count(d.budget.callsInHour, h) == |Calls(d'.work, h)| {
      assert Calls(d'.work, h) == Calls(d.work, h);
    }
    forall h ensures Count(d.budget.messagesInHour, h) == |Messages(d'.rows, h)| {
      assert Messages(d'.rows, h) == Messages(d.rows, h);
    }
  }

  lemma ChargeWithin(m: map<int, nat>, window: int, cap: nat)
    requires Within(m, cap) && Count(m, window) < cap
    ensures Within(Charge(m, window), cap)
  {
    forall x ensures Count(Charge(m, window), x) <= cap { assert Count(m, x) <= cap; }
  }

  lemma ChargeDay(days: map<int, nat>, hours: map<int, nat>, at: int)
    requires DaysInv(days, hours)
    ensures DaysInv(Charge(days, Day(at)), Charge(hours, Hour(at)))
  {
    var hour := Hour(at);
    forall day, k | k == HOURS_PER_DAY ensures Count(Charge(days, Day(at)), day) == HoursOf(Charge(hours, hour), day, k) {
      ChargeHour(hours, hour, day, k);
    }
  }

  lemma OneMoreCall(work: map<Id, Work>, id: Id, w: Work, h: int)
    requires id !in work && w.kind == Generative(ProactiveCycle)
    ensures |Calls(work[id := w], h)| == |Calls(work, h)| + if h == Hour(w.created) then 1 else 0
  {
    assert Calls(work[id := w], h) == Calls(work, h) + if h == Hour(w.created) then {id} else {};
  }

  lemma ChargeCalls(hours: map<int, nat>, work: map<Id, Work>, id: Id, cycle: Id, at: int)
    requires CallsInv(hours, work) && id !in work
    ensures CallsInv(Charge(hours, Hour(at)), work[id := NewWork(Generative(ProactiveCycle), cycle, at)])
  {
    var work' := work[id := NewWork(Generative(ProactiveCycle), cycle, at)];
    forall h ensures Count(Charge(hours, Hour(at)), h) == |Calls(work', h)| {
      assert Count(hours, h) == |Calls(work, h)|;
      OneMoreCall(work, id, NewWork(Generative(ProactiveCycle), cycle, at), h);
    }
  }

  lemma OneMoreMessage(rows: map<Id, Row>, msg: Id, row: Row, h: int)
    requires msg !in rows && row.kind.PROACTIVE?
    ensures |Messages(rows[msg := row], h)| == |Messages(rows, h)| + if h == Hour(row.created) then 1 else 0
  {
    assert Messages(rows[msg := row], h) == Messages(rows, h) + if h == Hour(row.created) then {msg} else {};
  }

  lemma ChargeMessages(hours: map<int, nat>, rows: map<Id, Row>, msg: Id, cycle: Id, at: int)
    requires MessagesInv(hours, rows) && msg !in rows
    ensures MessagesInv(Charge(hours, Hour(at)), rows[msg := Row(PROACTIVE, cycle, at)])
  {
    var rows' := rows[msg := Row(PROACTIVE, cycle, at)];
    forall h ensures Count(Charge(hours, Hour(at)), h) == |Messages(rows', h)| {
      assert Count(hours, h) == |Messages(rows, h)|;
      OneMoreMessage(rows, msg, Row(PROACTIVE, cycle, at), h);
    }
  }

  lemma FinishProactiveKeepsBudget(d: Store, cycle: Id, speak: bool, at: int, ch: Choice)
    requires BudgetInv(d) && Fresh(d, ch)
    ensures BudgetInv(FinishProactive(d, cycle, speak, at, ch).store)
  {
    NothingChargedKeeps(d, ApplyProposals(d, at, ch));
    if speak && ch.allowed && Count(d.budget.messagesInHour, Hour(at)) < d.caps.messagesPerHour {
      ChargeMessages(d.budget.messagesInHour, d.rows, ch.msg, cycle, at);
      ChargeWithin(d.budget.messagesInHour, Hour(at), d.caps.messagesPerHour);
    }
  }

  lemma FinishRepliesCharges(d: Store, w: Id, cycle: Id, speak: bool, at: int, ch: Choice)
    requires Fresh(d, ch) && w in d.work
    ensures NothingCharged(d, FinishMandatory(d, w, cycle, speak, at, ch).store)
    ensures NothingCharged(d, FinishReactive(d, cycle, speak, at, ch).store)
  {
  }

  lemma LlmKeepsBudget(d: Store, w: Id, cycle: Id, body: Body, at: int, ch: Choice)
    requires BudgetInv(d) && Fresh(d, ch)
    ensures BudgetInv(HandleLlmResult(d, w, cycle, body, at, ch).store)
  {
    var d' := HandleLlmResult(d, w, cycle, body, at, ch).store;
    if w !in d.work || d.work[w].cycle != cycle || d.work[w].status == COMPLETED {
    } else if body.Sentinel? {
      NothingChargedKeeps(d, Fail(d, w));
    } else {
      var done := d.(work := SetStatus(d.work, w, COMPLETED));
      NothingChargedKeeps(d, done);
      if body.Unparsable? {
        NothingChargedKeeps(done, Fail(done, w));
      } else {
        FinishRepliesCharges(done, w, cycle, body.Speak?, at, ch);
        match CycleOf(d.work[w])
        case MandatoryCycle => NothingChargedKeeps(done, FinishMandatory(done, w, cycle, body.Speak?, at, ch).store);
        case ReactiveCycle => NothingChargedKeeps(done, FinishReactive(done, cycle, body.Speak?, at, ch).store);
        case ProactiveCycle => FinishProactiveKeepsBudget(done, cycle, body.Speak?, at, ch);
      }
    }
  }

  lemma WakeKeepsBudget(d: Store, current: nat, session: nat, generation: nat, at: int, ch: Choice)
    requires BudgetInv(d) && Fresh(d, ch) && HandleWake(d, current, session, generation, at, ch).Some?
    ensures BudgetInv(HandleWake(d, current, session, generation, at, ch).value.store)
  {
    if session == d.sessions && generation == current && ch.allowed
       && Count(d.budget.callsInDay, Day(at)) < d.caps.callsPerDay
       && Count(d.budget.callsInHour, Hour(at)) < d.caps.callsPerHour {
      ChargeCalls(d.budget.callsInHour, d.work, ch.llm, ch.cycle, at);
      ChargeDay(d.budget.callsInDay, d.budget.callsInHour, at);
      ChargeWithin(d.budget.callsInHour, Hour(at), d.caps.callsPerHour);
      ChargeWithin(d.budget.callsInDay, Day(at), d.caps.callsPerDay);
    }
  }

  lemma HandleCharges(s: State, ev: Event, ch: Choice)
    requires Fresh(s.store, ch) && Handle(s, ev, ch).Some? && !ev.Wake? && !ev.LlmResult?
    ensures NothingCharged(s.store, Handle(s, ev, ch).value.store)
  {
    var o := Handle(s, ev, ch).value;
    assert o.store.budget == s.store.budget && o.store.caps == s.store.caps && o.store.rows == s.store.rows;
    if ev.Human? { HumanCharges(s.store, ev.id, ev.at, ch); }
  }

  lemma HumanCharges(d: Store, id: Id, at: int, ch: Choice)
    requires Fresh(d, ch) && HandleHuman(d, id, at, ch).Some?
    ensures NothingCharged(d, HandleHuman(d, id, at, ch).value.store)
  {
    hide CycleTaken;
  }

  // Dispatching and scheduling charge nothing.
  lemma ServiceCharges(s: State, ids: set<Id>, finite: bool)
    ensures NothingCharged(s.store, Dispatch(s, ids).store)
    ensures NothingCharged(s.store, Schedule(s, finite).store)
  {
  }

  lemma HandleKeepsBudget(s: State, ev: Event, ch: Choice)
    requires BudgetInv(s.store) && Fresh(s.store, ch) && Handle(s, ev, ch).Some?
    ensures BudgetInv(Handle(s, ev, ch).value.store)
  {
    hide BudgetInv, HandleHuman, HandleLlmResult, HandleWake;
    match ev
    case Wake(session, generation, at) => WakeKeepsBudget(s.store, s.vol.generation, session, generation, at, ch);
    case LlmResult(w, cycle, body, at) => LlmKeepsBudget(s.store, w, cycle, body, at, ch);
    case _ =>
      HandleCharges(s, ev, ch);
      NothingChargedKeeps(s.store, Handle(s, ev, ch).value.store);
  }

  lemma ProcessKeepsBudget(s: State, ev: Event, ch: Choice, leased: set<Id>, fault: bool, finite: bool)
    requires BudgetInv(s.store) && Fresh(s.store, ch)
    ensures BudgetInv(Process(s, ev, ch, leased, fault, finite).store)
  {
    hide BudgetInv, Handle, NothingCharged;
    if Handle(s, ev, ch).Some? {
      HandleKeepsBudget(s, ev, ch);
      var mid := Commit(s, Handle(s, ev, ch).value);
      ServiceCharges(mid, leased, finite);
      NothingChargedKeeps(mid.store, Dispatch(mid, leased).store);
      ServiceCharges(Dispatch(mid, leased), leased, finite);
      NothingChargedKeeps(Dispatch(mid, leased).store, Schedule(Dispatch(mid, leased), finite).store);
    }
  }

  // Changing the status or the attempts of items charges nothing.
  lemma RowsCharge(d: Store, d': Store)
    requires d'.budget == d.budget && d'.caps == d.caps && d'.rows == d.rows && d'.work.Keys == d.work.Keys
    requires forall w :: w in d.work ==> d'.work[w].kind == d.work[w].kind && d'.work[w].created == d.work[w].created
    ensures NothingCharged(d, d')
  {
  }

  lemma TaskCharges(s: State, step: Step)
    requires Enabled(s, step) && (step.TaskRetries? || step.TaskExhausted?)
    ensures NothingCharged(s.store, Next(s, step).store)
  {
    hide NothingCharged, Process, Handle;
    RowsCharge(s.store, Next(s, step).store);
  }

  lemma StartCharges(s: State, step: Step)
    requires Enabled(s, step) && (step.Recover? || step.DispatchNext?)
    ensures NothingCharged(s.store, Next(s, step).store)
  {
    hide NothingCharged;
    RowsCharge(s.store, Next(s, step).store);
  }

  lemma StepCharges(s: State, step: Step)
    requires Enabled(s, step)
    requires !step.Reduce? && !step.DrainNext? && !step.ReplayNext? && !step.StartEnds?
    ensures NothingCharged(s.store, Next(s, step).store)
  {
    hide NothingCharged, Process, Handle, Dispatch, Schedule;
    if step.TaskRetries? || step.TaskExhausted? {
      TaskCharges(s, step);
    } else if step.Recover? || step.DispatchNext? {
      StartCharges(s, step);
    } else {
      RowsCharge(s.store, Next(s, step).store);
    }
  }

  lemma BudgetNext(s: State, step: Step)
    requires BudgetInv(s.store) && Enabled(s, step)
    ensures BudgetInv(Next(s, step).store)
  {
    match step
    case Reduce(ch, leased, fault, finite) => ProcessKeepsBudget(Pop(s), s.vol.queue[0], ch, leased, fault, finite);
    case DrainNext(ch) =>
      if IsShutdownReducible(s.vol.queue[0]) {
        ProcessKeepsBudget(Pop(s), s.vol.queue[0], ch, {}, true, false);
      }
    case ReplayNext(ch, finite) =>
      ProcessKeepsBudget(PopReplay(s), s.vol.queue[0], ch, All(PopReplay(s), s.vol.queue[0], ch), false, finite);
    case StartEnds(ch, at, finite) => StartEndsKeepsBudget(s, ch, at, finite);
    case _ =>
      StepCharges(s, step);
      NothingChargedKeeps(s.store, Next(s, step).store);
  }

  lemma StartEndsKeepsBudget(s: State, ch: Choice, at: int, finite: bool)
    requires BudgetInv(s.store) && Enabled(s, StartEnds(ch, at, finite))
    ensures BudgetInv(Next(s, StartEnds(ch, at, finite)).store)
  {
    var ev := Reconcile(at);
    ProcessKeepsBudget(s, ev, ch, All(s, ev, ch), false, finite);
    var s' := Process(s, ev, ch, All(s, ev, ch), false, finite);
    var up := s'.(vol := s'.vol.(phase := Up));
    ServiceCharges(up, {}, finite);
    NothingChargedKeeps(up.store, Schedule(up, finite).store);
  }

  lemma InitBudget(caps: Caps)
    ensures BudgetInv(Init(caps).store)
  {
    forall day, k: nat ensures HoursOf(map[], day, k) == 0 { NoHours(day, k); }
    forall h ensures Calls(map[], h) == {} && Messages(map[], h) == {} {}
  }

  lemma {:induction false} NoHours(day: int, k: nat)
    ensures HoursOf(map[], day, k) == 0
  {
    if k > 0 { NoHours(day, k - 1); }
  }

  lemma {:induction false} BudgetRun(s: State, run: seq<Step>)
    requires BudgetInv(s.store) && ValidRun(s, run)
    ensures BudgetInv(Exec(s, run).store)
    decreases |run|
  {
    if run != [] {
      BudgetNext(s, run[0]);
      BudgetRun(Next(s, run[0]), run[1..]);
    }
  }

  // ---------------------------------------------------------------- windows

  // Two moments are charged to one hour, or one day, exactly when the clock says so.
  lemma WindowsMean(at: int, hour: int, day: int)
    ensures Hour(at) == hour <==> hour * 3600 <= at < (hour + 1) * 3600
    ensures Day(at) == day <==> day * 86400 <= at < (day + 1) * 86400
  {
  }
}
