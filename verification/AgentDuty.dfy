// Response obligations and replies: who owes an answer, when it is settled, and by which row.
module AgentDuty {
  import opened Base
  import opened Agent
  import opened AgentWork
  import opened AgentInbox

  // The cycles whose generative item has been completed.
  function DoneCycles(work: map<Id, Work>): set<Id> {
    set w | w in work && work[w].kind.Generative? && work[w].status.COMPLETED? :: work[w].cycle
  }

  ghost predicate SettledBy(d: Store, w: Id, m: Id)
    requires w in d.work
  {
    m in d.rows && d.rows[m].kind.MANDATORY? && d.rows[m].cycle == d.work[w].cycle
  }

  // An obligation against the status of its own work item.
  ghost predicate DutyOk(d: Store, forged: set<Id>, w: Id)
    requires w in d.obligations && w in d.work
  {
    var o, status := d.obligations[w], d.work[w].status;
    match o.status
    case DUTY_PENDING => !status.COMPLETED?
    case SATISFIED => status.COMPLETED? && o.satisfiedBy.Some? && SettledBy(d, w, o.satisfiedBy.value)
    case FAILED => w in forged || Terminal(status)
  }

  ghost predicate DutiesInv(d: Store, forged: set<Id>) {
    && (forall w :: w in d.obligations <==> w in d.work && d.work[w].kind == Generative(MandatoryCycle))
    && (forall w :: w in d.obligations ==> DutyOk(d, forged, w))
    && (forall w :: w in d.obligations ==> d.obligations[w].source in d.turns)
    && (forall v, w :: v in d.obligations && w in d.obligations && d.obligations[v].source == d.obligations[w].source ==> v == w)
  }

  // At most one reply per cycle, and only from a completed item.
  ghost predicate RowsInv(d: Store) {
    && (forall m :: m in d.rows ==> d.rows[m].cycle in DoneCycles(d.work))
    && (forall m, n :: m in d.rows && n in d.rows && d.rows[m].cycle == d.rows[n].cycle ==> m == n)
  }

  ghost predicate DutyInv(s: State) { DutiesInv(s.store, s.forged) && RowsInv(s.store) }

  ghost predicate Inv(s: State) { WorkInv(s) && InboxInv(s) && DutyInv(s) }

  // ---------------------------------------------------------------- steps that settle nothing

  // The tables of obligations and replies are untouched and no generative item is completed.
  ghost predicate Quiet(d: Store, d': Store) {
    && d'.obligations == d.obligations && d'.rows == d.rows && d.turns <= d'.turns
    && (forall w :: w in d.work ==> RowKept(d, d', w))
    && (forall w :: w in d.work && d.work[w].kind.Generative? && d'.work[w].status.COMPLETED? ==> d.work[w].status.COMPLETED?)
    && (forall w :: w in d'.work && w !in d.work ==>
          !d'.work[w].status.COMPLETED? && d'.work[w].kind != Generative(MandatoryCycle))
  }

  lemma QuietKeeps(d: Store, d': Store, forged: set<Id>, forged': set<Id>)
    requires DutiesInv(d, forged) && RowsInv(d) && Quiet(d, d') && forged <= forged'
    ensures DutiesInv(d', forged') && RowsInv(d')
  {
    forall w | w in d'.obligations ensures DutyOk(d', forged', w) {
      assert DutyOk(d, forged, w) && RowKept(d, d', w);
    }
    forall m | m in d'.rows ensures d'.rows[m].cycle in DoneCycles(d'.work) {
      var w :| w in d.work && d.work[w].kind.Generative? && d.work[w].status.COMPLETED? && d.work[w].cycle == d.rows[m].cycle;
      assert RowKept(d, d', w);
    }
  }

  // ---------------------------------------------------------------- the generative result

  lemma NoReplyYet(s: State, w: Id)
    requires WorkInv(s) && RowsInv(s.store) && w in s.store.work && s.store.work[w].kind.Generative?
    requires !s.store.work[w].status.COMPLETED?
    ensures forall m :: m in s.store.rows ==> s.store.rows[m].cycle != s.store.work[w].cycle
  {
  }

  // Item w is completed, and only embedding items are new.
  ghost predicate Completed(work: map<Id, Work>, work': map<Id, Work>, w: Id) {
    && w in work && w in work' && work'[w] == work[w].(status := COMPLETED)
    && (forall v :: v in work && v != w ==> v in work' && work'[v] == work[v])
    && (forall v :: v in work' && v !in work ==> work'[v].kind.Embedding?)
  }

  lemma CompletedWithProposals(d: Store, w: Id, at: int, ch: Choice)
    requires w in d.work && Fresh(d, ch)
    ensures Completed(d.work, AddEmbeddings(SetStatus(d.work, w, COMPLETED), ch.made, ch.cycle, at), w)
  {
  }

  // Completing item w with at most one new row, its own.
  ghost predicate Settles(d: Store, d': Store, w: Id, ch: Choice) {
    && d'.turns == d.turns && Completed(d.work, d'.work, w)
    && (forall v :: v in d.obligations <==> v in d'.obligations)
    && (forall v :: v in d.obligations && v != w ==> d'.obligations[v] == d.obligations[v])
    && (forall m :: m in d.rows && m != ch.msg ==> m in d'.rows && d'.rows[m] == d.rows[m])
    && (forall m :: m in d'.rows ==> m in d.rows || (m == ch.msg && d'.rows[m].cycle == d.work[w].cycle))
    && (w in d.obligations ==>
          && d'.obligations[w].source == d.obligations[w].source
          && (|| d'.obligations[w].status.FAILED?
              || (d'.obligations[w].status.SATISFIED? && d'.obligations[w].satisfiedBy == Some(ch.msg) && SettledBy(d', w, ch.msg))))
  }

  lemma SettlesKeeps(s: State, d': Store, w: Id, ch: Choice)
    requires WorkInv(s) && DutyInv(s) && Settles(s.store, d', w, ch) && Fresh(s.store, ch)
    requires s.store.work[w].kind.Generative? && !s.store.work[w].status.COMPLETED?
    ensures DutiesInv(d', s.forged) && RowsInv(d')
  {
    SettlesKeepsDuties(s, d', w, ch);
    SettlesKeepsRows(s, d', w, ch);
  }

  lemma SettlesKeepsDuties(s: State, d': Store, w: Id, ch: Choice)
    requires DutiesInv(s.store, s.forged) && Settles(s.store, d', w, ch) && Fresh(s.store, ch)
    ensures DutiesInv(d', s.forged)
  {
    var d := s.store;
    forall v | v in d'.obligations ensures v in d'.work && DutyOk(d', s.forged, v) {
      assert DutyOk(d, s.forged, v);
      if v != w && d.obligations[v].status.SATISFIED? {
        assert SettledBy(d, v, d.obligations[v].satisfiedBy.value);
      }
    }
    forall v ensures v in d'.obligations <==> v in d'.work && d'.work[v].kind == Generative(MandatoryCycle) {
      assert v in d'.work && v !in d.work ==> d'.work[v].kind.Embedding?;
      assert v in d.work ==> v in d'.work && d'.work[v].kind == d.work[v].kind;
    }
    assert forall v :: v in d.obligations ==> d'.obligations[v].source == d.obligations[v].source;
  }

  lemma SettlesKeepsRows(s: State, d': Store, w: Id, ch: Choice)
    requires WorkInv(s) && RowsInv(s.store) && Settles(s.store, d', w, ch) && Fresh(s.store, ch)
    requires s.store.work[w].kind.Generative? && !s.store.work[w].status.COMPLETED?
    ensures RowsInv(d')
  {
    var d := s.store;
    NoReplyYet(s, w);
    forall m | m in d'.rows ensures d'.rows[m].cycle in DoneCycles(d'.work) {
      if m in d.rows {
        var v :| v in d.work && d.work[v].kind.Generative? && d.work[v].status.COMPLETED? && d.work[v].cycle == d.rows[m].cycle;
        assert v in d'.work && d'.work[v].status.COMPLETED? && d'.work[v].cycle == d.rows[m].cycle;
      } else {
        assert d'.work[w].cycle == d'.rows[m].cycle;
      }
    }
  }

  lemma MandatorySettles(s: State, w: Id, cycle: Id, speak: bool, at: int, ch: Choice)
    requires DutiesInv(s.store, s.forged) && Fresh(s.store, ch)
    requires w in s.store.work && s.store.work[w].kind == Generative(MandatoryCycle) && s.store.work[w].cycle == cycle
    ensures var done := s.store.(work := SetStatus(s.store.work, w, COMPLETED));
            Settles(s.store, FinishMandatory(done, w, cycle, speak, at, ch).store, w, ch)
  {
    var done := s.store.(work := SetStatus(s.store.work, w, COMPLETED));
    CompletedWithProposals(s.store, w, at, ch);
    MandatoryShape(done, w, cycle, speak, at, ch);
    hide Completed, FinishMandatory, AddEmbeddings, DutiesInv, Settles, SatisfyDuty, FailDuty, SetStatus;
    var d' := FinishMandatory(done, w, cycle, speak, at, ch).store;
    if speak { AnswerSettles(s.store, d', w, at, ch); } else { FailureSettles(s.store, d', w, ch); }
  }

  lemma AnswerSettles(d: Store, d': Store, w: Id, at: int, ch: Choice)
    requires Completed(d.work, d'.work, w) && d'.turns == d.turns && ch.msg !in d.rows
    requires d'.obligations == SatisfyDuty(d.obligations, w, ch.msg)
    requires d'.rows == d.rows[ch.msg := Row(MANDATORY, d.work[w].cycle, at)]
    ensures Settles(d, d', w, ch)
  {
  }

  lemma FailureSettles(d: Store, d': Store, w: Id, ch: Choice)
    requires Completed(d.work, d'.work, w) && d'.turns == d.turns
    requires d'.obligations == FailDuty(d.obligations, w) && d'.rows == d.rows
    ensures Settles(d, d', w, ch)
  {
  }

  lemma MandatoryShape(d: Store, w: Id, cycle: Id, speak: bool, at: int, ch: Choice)
    requires w in d.work
    ensures var d' := FinishMandatory(d, w, cycle, speak, at, ch).store;
            && d'.turns == d.turns && d'.work == AddEmbeddings(d.work, ch.made, ch.cycle, at)
            && d'.obligations == (if speak then SatisfyDuty(d.obligations, w, ch.msg) else FailDuty(d.obligations, w))
            && d'.rows == (if speak then d.rows[ch.msg := Row(MANDATORY, cycle, at)] else d.rows)
  {
    hide AddEmbeddings;
  }

  lemma ReactiveSettles(s: State, w: Id, cycle: Id, speak: bool, at: int, ch: Choice)
    requires DutiesInv(s.store, s.forged) && Fresh(s.store, ch)
    requires w in s.store.work && s.store.work[w].kind == Generative(ReactiveCycle) && s.store.work[w].cycle == cycle
    ensures var done := s.store.(work := SetStatus(s.store.work, w, COMPLETED));
            Settles(s.store, FinishReactive(done, cycle, speak, at, ch).store, w, ch)
  {
  }

  lemma ProactiveSettles(s: State, w: Id, cycle: Id, speak: bool, at: int, ch: Choice)
    requires DutiesInv(s.store, s.forged) && Fresh(s.store, ch)
    requires w in s.store.work && s.store.work[w].kind == Generative(ProactiveCycle) && s.store.work[w].cycle == cycle
    ensures var done := s.store.(work := SetStatus(s.store.work, w, COMPLETED));
            Settles(s.store, FinishProactive(done, cycle, speak, at, ch).store, w, ch)
  {
  }

  lemma LlmSettles(s: State, w: Id, cycle: Id, body: Body, at: int, ch: Choice)
    requires DutiesInv(s.store, s.forged)
    requires ResultOk(s, LlmResult(w, cycle, body, at)) && Fresh(s.store, ch) && !body.Sentinel?
    ensures Settles(s.store, HandleLlmResult(s.store, w, cycle, body, at, ch).store, w, ch)
  {
    hide FinishMandatory, FinishReactive, FinishProactive;
    if !body.Unparsable? {
      match CycleOf(s.store.work[w])
      case MandatoryCycle => MandatorySettles(s, w, cycle, body.Speak?, at, ch);
      case ReactiveCycle => ReactiveSettles(s, w, cycle, body.Speak?, at, ch);
      case ProactiveCycle => ProactiveSettles(s, w, cycle, body.Speak?, at, ch);
    }
  }

  lemma LlmKeepsDuty(s: State, w: Id, cycle: Id, body: Body, at: int, ch: Choice)
    requires WorkInv(s) && DutyInv(s) && ResultOk(s, LlmResult(w, cycle, body, at)) && Fresh(s.store, ch)
    ensures var d' := HandleLlmResult(s.store, w, cycle, body, at, ch).store;
            DutiesInv(d', s.forged) && RowsInv(d')
  {
    var d, d' := s.store, HandleLlmResult(s.store, w, cycle, body, at, ch).store;
    if body.Sentinel? {
      assert d' == Fail(d, w);
      forall v | v in d'.obligations ensures DutyOk(d', s.forged, v) {
        assert DutyOk(d, s.forged, v);
        assert v != w && d.obligations[v].status.SATISFIED? ==> SettledBy(d, v, d.obligations[v].satisfiedBy.value);
      }
    } else {
      LlmSettles(s, w, cycle, body, at, ch);
      SettlesKeeps(s, d', w, ch);
    }
  }

  lemma AskKeepsDuties(s: State, id: Id, at: int, ch: Choice)
    requires DutiesInv(s.store, s.forged) && id !in s.store.turns && Fresh(s.store, ch)
    requires ch.path.MandatoryPath? && HandleHuman(s.store, id, at, ch).Some?
    ensures DutiesInv(HandleHuman(s.store, id, at, ch).value.store, s.forged)
  {
    var d, d' := s.store, HandleHuman(s.store, id, at, ch).value.store;
    forall v | v in d'.obligations ensures DutyOk(d', s.forged, v) {
      if v in d.obligations {
        assert DutyOk(d, s.forged, v);
        assert d.obligations[v].status.SATISFIED? ==> SettledBy(d, v, d.obligations[v].satisfiedBy.value);
      }
    }
  }

  lemma AskKeepsRows(s: State, id: Id, at: int, ch: Choice)
    requires RowsInv(s.store) && Fresh(s.store, ch)
    requires ch.path.MandatoryPath? && HandleHuman(s.store, id, at, ch).Some?
    ensures RowsInv(HandleHuman(s.store, id, at, ch).value.store)
  {
    var d, d' := s.store, HandleHuman(s.store, id, at, ch).value.store;
    forall m | m in d'.rows ensures d'.rows[m].cycle in DoneCycles(d'.work) {
      var v :| v in d.work && d.work[v].kind.Generative? && d.work[v].status.COMPLETED? && d.work[v].cycle == d.rows[m].cycle;
      assert d'.work[v] == d.work[v];
    }
  }

  lemma HumanKeepsDuty(s: State, id: Id, at: int, ch: Choice)
    requires DutyInv(s) && id !in s.store.turns && Fresh(s.store, ch) && HandleHuman(s.store, id, at, ch).Some?
    ensures var d' := HandleHuman(s.store, id, at, ch).value.store;
            DutiesInv(d', s.forged) && RowsInv(d')
  {
    hide DutiesInv, RowsInv;
    if ch.path.MandatoryPath? {
      AskKeepsDuties(s, id, at, ch);
      AskKeepsRows(s, id, at, ch);
    } else {
      QuietKeeps(s.store, HandleHuman(s.store, id, at, ch).value.store, s.forged, s.forged);
    }
  }

  lemma CommitKeepsDuty(s: State, ev: Event, ch: Choice)
    requires WorkInv(s) && DutyInv(s) && LogInv(s.store) && ResultOk(s, ev) && Waits(s.store, ev)
    requires Fresh(s.store, ch) && Handle(s, ev, ch).Some?
    ensures var d' := Handle(s, ev, ch).value.store;
            DutiesInv(d', s.forged) && RowsInv(d')
  {
    hide DutiesInv, RowsInv, WorkInv, HandleHuman, HandleLlmResult;
    match ev
    case Human(id, at) => HumanKeepsDuty(s, id, at, ch);
    case LlmResult(w, cycle, body, at) => LlmKeepsDuty(s, w, cycle, body, at, ch);
    case Wake(_, _, _) => QuietKeeps(s.store, Handle(s, ev, ch).value.store, s.forged, s.forged);
    case EmbeddingResult(_, _) => QuietKeeps(s.store, Handle(s, ev, ch).value.store, s.forged, s.forged);
    case Reconcile(_) => QuietKeeps(s.store, Handle(s, ev, ch).value.store, s.forged, s.forged);
  }

  lemma ProcessKeepsDuty(s: State, ev: Event, ch: Choice, leased: set<Id>, fault: bool, finite: bool)
    requires WorkInv(s) && DutyInv(s) && LogInv(s.store) && ResultOk(s, ev) && Waits(s.store, ev)
    requires ProcessEnabled(s, ev, ch, leased, fault)
    ensures DutyInv(Process(s, ev, ch, leased, fault, finite))
  {
    hide DutiesInv, RowsInv, Handle;
    if Handle(s, ev, ch).Some? {
      CommitKeepsDuty(s, ev, ch);
      ProcessOnWork(s, ev, ch, leased, fault, finite);
      var o, s' := Handle(s, ev, ch).value, Process(s, ev, ch, leased, fault, finite);
      assert s'.store.obligations == o.store.obligations && s'.store.rows == o.store.rows && s'.store.turns == o.store.turns;
      QuietKeeps(o.store, s'.store, s.forged, s'.forged);
    }
  }

  // ---------------------------------------------------------------- every step, every run

  // Steps outside a reduction.
  lemma OtherKeepsDuty(s: State, step: Step)
    requires Inv(s) && Enabled(s, step)
    requires !step.Reduce? && !step.DrainNext? && !step.ReplayNext? && !step.StartEnds?
    ensures DutyInv(Next(s, step))
  {
    var s' := Next(s, step);
    forall w | w in s.store.work ensures RowKept(s.store, s'.store, w) { RowNext(s, step, w); }
    InboxNext(s, step);
    OtherOnTables(s, step);
    QuietKeeps(s.store, s'.store, s.forged, s'.forged);
  }

  lemma OtherOnTables(s: State, step: Step)
    requires WorkInv(s) && Enabled(s, step)
    requires !step.Reduce? && !step.DrainNext? && !step.ReplayNext? && !step.StartEnds?
    ensures var d, d' := s.store, Next(s, step).store;
            && d'.obligations == d.obligations && d'.rows == d.rows && d'.work.Keys == d.work.Keys
            && s.forged <= Next(s, step).forged
            && (forall w :: w in d.work && d'.work[w].status.COMPLETED? ==> d.work[w].status.COMPLETED?)
  {
    match step
    case TaskRetries(t) => assert TaskOk(s, t);
    case TaskExhausted(t, _) => assert TaskOk(s, t);
    case _ =>
  }

  lemma ReplayKeepsDuty(s: State, ch: Choice, finite: bool)
    requires Inv(s) && Enabled(s, ReplayNext(ch, finite))
    ensures DutyInv(Next(s, ReplayNext(ch, finite)))
  {
    PopKeeps(s);
    PopKeepsInbox(s);
    var ev, s' := s.vol.queue[0], PopReplay(s);
    Relax(Pop(s), s');
    AloneDepends(Pop(s), s', ev);
    AllEnabled(s', ev, ch);
    ProcessKeepsDuty(s', ev, ch, All(s', ev, ch), false, finite);
  }

  lemma StartEndsKeepsDuty(s: State, ch: Choice, at: int, finite: bool)
    requires Inv(s) && Enabled(s, StartEnds(ch, at, finite))
    ensures DutyInv(Next(s, StartEnds(ch, at, finite)))
  {
    hide DutiesInv, RowsInv;
    AllEnabled(s, Reconcile(at), ch);
    ProcessKeepsDuty(s, Reconcile(at), ch, All(s, Reconcile(at), ch), false, finite);
    var mid, s' := Process(s, Reconcile(at), ch, All(s, Reconcile(at), ch), false, finite), Next(s, StartEnds(ch, at, finite));
    QuietKeeps(mid.store, s'.store, mid.forged, s'.forged);
  }

  lemma ReduceKeepsDuty(s: State, step: Step)
    requires Inv(s) && Enabled(s, step) && (step.Reduce? || step.DrainNext?)
    ensures DutyInv(Next(s, step))
  {
    PopKeeps(s);
    PopKeepsInbox(s);
    assert DutyInv(Pop(s));
    hide WorkInv, InboxInv, DutyInv, Process, Handle;
    match step
    case Reduce(ch, leased, fault, finite) => ProcessKeepsDuty(Pop(s), s.vol.queue[0], ch, leased, fault, finite);
    case DrainNext(ch) =>
      if IsShutdownReducible(s.vol.queue[0]) {
        ProcessKeepsDuty(Pop(s), s.vol.queue[0], ch, {}, true, false);
      }
  }

  lemma DutyNext(s: State, step: Step)
    requires Inv(s) && Enabled(s, step)
    ensures DutyInv(Next(s, step))
  {
    hide DutyInv, Next, Enabled;
    match step
    case Reduce(_, _, _, _) => ReduceKeepsDuty(s, step);
    case DrainNext(_) => ReduceKeepsDuty(s, step);
    case ReplayNext(ch, finite) => ReplayKeepsDuty(s, ch, finite);
    case StartEnds(ch, at, finite) => StartEndsKeepsDuty(s, ch, at, finite);
    case _ => OtherKeepsDuty(s, step);
  }

  lemma InvNext(s: State, step: Step)
    requires Inv(s) && Enabled(s, step)
    ensures Inv(Next(s, step))
  {
    WorkNext(s, step);
    InboxNext(s, step);
    DutyNext(s, step);
  }

  // In every reachable state each reply answers its own completed cycle, each obligation agrees
  // with its own work item, and no message is turned or answered twice.
  lemma {:induction false} InvRun(s: State, run: seq<Step>)
    requires Inv(s) && ValidRun(s, run)
    ensures Inv(Exec(s, run))
    decreases |run|
  {
    if run != [] {
      InvNext(s, run[0]);
      InvRun(Next(s, run[0]), run[1..]);
    }
  }

  lemma Reachable(caps: Caps, run: seq<Step>)
    requires ValidRun(Init(caps), run)
    ensures Inv(Exec(Init(caps), run))
  {
    InvRun(Init(caps), run);
  }
}
