// When a cycle gets its reply, and what turns and wakes start: the decisions of the handlers, case
// by case, and what they amount to over runs.
module AgentReplies {
  import opened Base
  import opened Agent
  import opened AgentWork
  import opened AgentInbox
  import opened AgentDuty
  import opened AgentOutlook

  // ---------------------------------------------------------------- the reduction of a result

  // The reply a generative result gets: a mandatory cycle's when it spoke, a reactive one's when it
  // is still allowed, a proactive one's when also the hour has room for one more message.
  predicate Sends(d: Store, kind: Kind, body: Body, at: int, allowed: bool) {
    && body == Speak
    && match kind
       case Generative(MandatoryCycle) => true
       case Generative(ReactiveCycle) => allowed
       case Generative(ProactiveCycle) => allowed && Count(d.budget.messagesInHour, at / 3600) < d.caps.messagesPerHour
       case Embedding => allowed
  }

  function OutKindOf(kind: Kind): OutKind { if kind == Generative(ProactiveCycle) then PROACTIVE else MANDATORY }

  // A result of an item that is not completed writes one row of its cycle exactly in these cases,
  // and touches no other row.
  lemma ResultWrites(d: Store, w: Id, cycle: Id, body: Body, at: int, ch: Choice)
    requires w in d.work && d.work[w].cycle == cycle && d.work[w].status != COMPLETED
    ensures var o := HandleLlmResult(d, w, cycle, body, at, ch);
            o.store.rows == if Sends(d, d.work[w].kind, body, at, ch.allowed)
                            then d.rows[ch.msg := Row(OutKindOf(d.work[w].kind), cycle, at)] else d.rows
  {
  }

  // ... and asks for a new schedule exactly when it ends a proactive cycle with a decision.
  lemma ResultAsks(d: Store, w: Id, cycle: Id, body: Body, at: int, ch: Choice)
    ensures var o := HandleLlmResult(d, w, cycle, body, at, ch);
            var live := w in d.work && d.work[w].cycle == cycle && d.work[w].status != COMPLETED;
            && !o.acted
            && (o.reschedule <==> live && (body == Speak || body == NonSpeak) && d.work[w].kind == Generative(ProactiveCycle))
            && o.dispatch == if live && (body == Speak || body == NonSpeak) then ch.made else {}
  {
  }

  // The items a handler makes: pending, never attempted, and of that kind and cycle.
  predicate Makes(work': map<Id, Work>, ids: set<Id>, kind: Kind, cycle: Id, at: int) {
    forall w :: w in ids ==> w in work' && work'[w] == Work(kind, cycle, at, PENDING, 0)
  }

  // Besides the ids made, the items stay as they were.
  predicate OnlyMakes(work: map<Id, Work>, work': map<Id, Work>, ids: set<Id>) {
    work'.Keys == work.Keys + ids && forall w :: w in work && w !in ids ==> work'[w] == work[w]
  }

  lemma MadeItems(work: map<Id, Work>, ids: set<Id>, cycle: Id, at: int)
    ensures var work' := AddEmbeddings(work, ids, cycle, at);
            OnlyMakes(work, work', ids) && Makes(work', ids, Embedding, cycle, at)
  {
  }

  // What a result does to the items: a failure of the worker changes none; anything else completes
  // its item, and a decision also makes the embedding items of what it enriched.
  lemma ResultItems(d: Store, w: Id, cycle: Id, body: Body, at: int, ch: Choice)
    requires Fresh(d, ch) && w in d.work && d.work[w].cycle == cycle && d.work[w].status != COMPLETED
    ensures var work' := HandleLlmResult(d, w, cycle, body, at, ch).store.work;
            match body
            case Sentinel => work' == d.work
            case Unparsable => work' == d.work[w := d.work[w].(status := COMPLETED)]
            case _ => OnlyMakes(d.work[w := d.work[w].(status := COMPLETED)], work', ch.made)
                      && Makes(work', ch.made, Embedding, ch.cycle, at)
  {
    MadeItems(d.work[w := d.work[w].(status := COMPLETED)], ch.made, ch.cycle, at);
    hide AddEmbeddings, Makes, OnlyMakes;
  }

  // No other event writes a row.
  lemma OthersWriteNothing(s: State, ev: Event, ch: Choice)
    requires !ev.LlmResult? && Handle(s, ev, ch).Some?
    ensures Handle(s, ev, ch).value.store.rows == s.store.rows
  {
    hide HandleLlmResult, CycleTaken;
  }

  // ---------------------------------------------------------------- what a turn and a wake start

  // A turn fails only where it would start a second generative item in its cycle; otherwise it owes
  // a reply exactly when it is mandatory.
  lemma TurnStarts(d: Store, id: Id, at: int, ch: Choice)
    ensures var r, answers := HandleHuman(d, id, at, ch), ch.path != SilentPath;
            && (Fresh(d, ch) ==> (r.None? <==> answers && CycleTaken(d.work, ch.cycle)))
            && (r.Some? ==>
                  && r.value.reschedule && !r.value.acted
                  && r.value.store.rows == d.rows && r.value.store.budget == d.budget
                  && (ch.llm in r.value.dispatch <==> answers || (ch.embed && ch.emb == ch.llm))
                  && r.value.store.obligations == if ch.path == MandatoryPath
                                                  then d.obligations[ch.llm := Obligation(id, DUTY_PENDING, None)]
                                                  else d.obligations)
  {
    if Fresh(d, ch) && CycleTaken(d.work, ch.cycle) { TakenStays(d, ch, at); }
    if CycleTaken(d.work[ch.emb := NewWork(Embedding, ch.cycle, at)], ch.cycle) { NotTakenByEmbedding(d, ch, at); }
    hide CycleTaken;
  }

  // A turn makes an embedding item if its message is to be embedded, and a generative one, of the
  // kind of its answer, if it is to be answered; no other, and none changes.
  lemma TurnItems(d: Store, id: Id, at: int, ch: Choice)
    requires Fresh(d, ch) && HandleHuman(d, id, at, ch).Some?
    ensures var work' := HandleHuman(d, id, at, ch).value.store.work;
            var emb, llm := if ch.embed then {ch.emb} else {}, if ch.path == SilentPath then {} else {ch.llm};
            var answer := if ch.path == MandatoryPath then MandatoryCycle else ReactiveCycle;
            && OnlyMakes(d.work, work', emb + llm) && HandleHuman(d, id, at, ch).value.dispatch == emb + llm
            && Makes(work', emb, Embedding, ch.cycle, at) && Makes(work', llm, Generative(answer), ch.cycle, at)
  {
    hide CycleTaken;
  }

  lemma NotTakenByEmbedding(d: Store, ch: Choice, at: int)
    requires CycleTaken(d.work[ch.emb := NewWork(Embedding, ch.cycle, at)], ch.cycle)
    ensures CycleTaken(d.work, ch.cycle)
  {
    var work := d.work[ch.emb := NewWork(Embedding, ch.cycle, at)];
    var w :| w in work && work[w].kind.Generative? && work[w].cycle == ch.cycle;
    assert w in d.work && d.work[w] == work[w];
  }

  // A wake that is not stale starts a proactive cycle exactly when the gates allow it and both the
  // day and the hour have room for one more call; it reschedules in any case.
  lemma WakeStarts(d: Store, current: nat, session: nat, generation: nat, at: int, ch: Choice)
    ensures var r := HandleWake(d, current, session, generation, at, ch);
            var live := session == d.sessions && generation == current;
            var room := Count(d.budget.callsInDay, at / 86400) < d.caps.callsPerDay
                        && Count(d.budget.callsInHour, at / 3600) < d.caps.callsPerHour;
            var calls := live && ch.allowed && room;
            && (r.None? <==> calls && CycleTaken(d.work, ch.cycle))
            && (r.Some? ==>
                  && r.value.acted == live && r.value.reschedule == live && r.value.dispatch == (if calls then {ch.llm} else {})
                  && r.value.store.work == (if calls then d.work[ch.llm := Work(Generative(ProactiveCycle), ch.cycle, at, PENDING, 0)]
                                            else d.work)
                  && r.value.store.obligations == d.obligations && r.value.store.rows == d.rows)
  {
    hide CycleTaken;
    assert at / 3600 / 24 == at / 86400;
  }

  // ---------------------------------------------------------------- over runs

  // The cycle of item w has a row.
  ghost predicate Replied(s: State, w: Id) {
    && w in s.store.work && s.store.work[w].kind.Generative?
    && exists m :: m in s.store.rows && s.store.rows[m].cycle == s.store.work[w].cycle
  }

  // The step reduces a result of w that gets a reply.
  ghost predicate Replies(s: State, step: Step, w: Id) {
    && Reduces(s, step, w) && s.vol.queue[0].LlmResult?
    && w in s.store.work && s.store.work[w].kind.Generative?
    && Sends(s.store, s.store.work[w].kind, s.vol.queue[0].body, s.vol.queue[0].at, step.ch.allowed)
  }

  // The rows after an event is processed.
  lemma ProcessRows(s: State, ev: Event, ch: Choice, leased: set<Id>, fault: bool, finite: bool)
    requires ev.LlmResult? ==> ResultOk(s, ev)
    ensures var rows := Process(s, ev, ch, leased, fault, finite).store.rows;
            rows == if ev.LlmResult? && Sends(s.store, s.store.work[ev.work].kind, ev.body, ev.at, ch.allowed)
                    then s.store.rows[ch.msg := Row(OutKindOf(s.store.work[ev.work].kind), ev.cycle, ev.at)] else s.store.rows
  {
    if ev.LlmResult? {
      ResultWrites(s.store, ev.work, ev.cycle, ev.body, ev.at, ch);
    } else if Handle(s, ev, ch).Some? {
      OthersWriteNothing(s, ev, ch);
    }
    hide HandleLlmResult, HandleHuman, HandleWake, Sends;
  }

  // The rows after any step: one more exactly when it reduces a result that gets a reply.
  lemma RowsAfter(s: State, step: Step)
    requires Inv(s) && Enabled(s, step)
    ensures var rows, rows' := s.store.rows, Next(s, step).store.rows;
            if (step.Reduce? || step.DrainNext?) && s.vol.queue[0].LlmResult? && Replies(s, step, s.vol.queue[0].work)
            then var ev := s.vol.queue[0];
                 rows' == rows[step.ch.msg := Row(OutKindOf(s.store.work[ev.work].kind), ev.cycle, ev.at)]
                 && step.ch.msg !in rows && s.store.work[ev.work].cycle == ev.cycle
            else rows' == rows
  {
    if s.vol.queue != [] { assert ResultOk(s, s.vol.queue[0]); }
    hide Process, Handle, WorkInv, DutyInv, Sends;
    match step
    case Reduce(ch, leased, fault, finite) => ProcessRows(Pop(s), s.vol.queue[0], ch, leased, fault, finite);
    case DrainNext(ch) =>
      if IsShutdownReducible(s.vol.queue[0]) { ProcessRows(Pop(s), s.vol.queue[0], ch, {}, true, false); }
    case ReplayNext(ch, finite) =>
      ReplaysMessages(s);
      ProcessRows(PopReplay(s), s.vol.queue[0], ch, All(PopReplay(s), s.vol.queue[0], ch), false, finite);
    case StartEnds(ch, at, finite) => ProcessRows(s, Reconcile(at), ch, All(s, Reconcile(at), ch), false, finite);
    case _ => OtherOnTables(s, step);
  }

  // A row is of the kind of its cycle's item.
  ghost predicate KindsInv(s: State) {
    forall m, w :: m in s.store.rows && w in s.store.work && s.store.work[w].kind.Generative?
                   && s.store.rows[m].cycle == s.store.work[w].cycle
      ==> s.store.rows[m].kind == OutKindOf(s.store.work[w].kind)
  }

  lemma ProcessAdds(s: State, ev: Event, ch: Choice, leased: set<Id>, fault: bool, finite: bool, w: Id)
    requires ProcessEnabled(s, ev, ch, leased, fault) && w !in s.store.work
    ensures var work := Process(s, ev, ch, leased, fault, finite).store.work; w in work ==> !work[w].status.COMPLETED?
  {
    if Handle(s, ev, ch).Some? { ProcessOnWork(s, ev, ch, leased, fault, finite); }
    hide Process, Handle;
  }

  // An item is created before any result of it.
  lemma NewPending(s: State, step: Step, w: Id)
    requires Inv(s) && Enabled(s, step) && w !in s.store.work && w in Next(s, step).store.work
    ensures !Next(s, step).store.work[w].status.COMPLETED?
  {
    hide Process, Handle, WorkInv, InboxInv, DutyInv;
    match step
    case Reduce(ch, leased, fault, finite) => ProcessAdds(Pop(s), s.vol.queue[0], ch, leased, fault, finite, w);
    case DrainNext(ch) =>
      if IsShutdownReducible(s.vol.queue[0]) { ProcessAdds(Pop(s), s.vol.queue[0], ch, {}, true, false, w); }
    case ReplayNext(ch, finite) =>
      AllEnabled(PopReplay(s), s.vol.queue[0], ch);
      ProcessAdds(PopReplay(s), s.vol.queue[0], ch, All(PopReplay(s), s.vol.queue[0], ch), false, finite, w);
    case StartEnds(ch, at, finite) =>
      AllEnabled(s, Reconcile(at), ch);
      ProcessAdds(s, Reconcile(at), ch, All(s, Reconcile(at), ch), false, finite, w);
    case _ => OtherOnTables(s, step);
  }

  // An item that appears with a step has no row yet, and one that was there keeps kind and cycle.
  lemma ItemNext(s: State, step: Step, w: Id)
    requires Inv(s) && Enabled(s, step) && w in Next(s, step).store.work && Next(s, step).store.work[w].kind.Generative?
    ensures w in s.store.work ==>
              s.store.work[w].kind == Next(s, step).store.work[w].kind && s.store.work[w].cycle == Next(s, step).store.work[w].cycle
    ensures w !in s.store.work ==> forall m :: m in Next(s, step).store.rows ==>
              Next(s, step).store.rows[m].cycle != Next(s, step).store.work[w].cycle
  {
    InvNext(s, step);
    if w in s.store.work {
      RowNext(s, step, w);
    } else {
      NewPending(s, step, w);
      NoReplyYet(Next(s, step), w);
    }
  }

  // The same in terms of one cycle: its rows before, and the row the step may add.
  lemma CycleAfter(s: State, step: Step, w: Id)
    requires Inv(s) && Enabled(s, step) && w in s.store.work && s.store.work[w].kind.Generative?
    ensures var c, rows, rows' := s.store.work[w].cycle, s.store.rows, Next(s, step).store.rows;
            && (forall m :: m in rows ==> m in rows' && rows'[m] == rows[m])
            && (Replies(s, step, w) ==> step.ch.msg in rows' && rows'[step.ch.msg].cycle == c)
            && (!Replies(s, step, w) ==> forall m :: m in rows' && rows'[m].cycle == c ==> m in rows)
  {
    RowsAfter(s, step);
    if s.vol.queue != [] { SameCycle(s, w); }
    hide Next, Inv, Enabled, Sends;
  }

  // A cycle gets its reply exactly with such a step, and keeps it.
  lemma RepliedNext(s: State, step: Step, w: Id)
    requires Inv(s) && Enabled(s, step)
    ensures Replied(Next(s, step), w) <==> Replied(s, w) || Replies(s, step, w)
  {
    assert WorkInv(s);
    var s' := Next(s, step);
    if w in s.store.work {
      RowNext(s, step, w);
      if s.store.work[w].kind.Generative? { CycleAfter(s, step, w); }
    } else if w in s'.store.work && s'.store.work[w].kind.Generative? {
      ItemNext(s, step, w);
    }
    hide Next, Inv, WorkInv, Enabled, Sends, Reduces;
  }

  // Two results of one cycle are of one item.
  lemma SameCycle(s: State, w: Id)
    requires Inv(s) && s.vol.queue != []
    ensures var ev := s.vol.queue[0];
            ev.LlmResult? ==>
              && ev.work in s.store.work && s.store.work[ev.work].kind.Generative? && s.store.work[ev.work].cycle == ev.cycle
              && (w in s.store.work && s.store.work[w].kind.Generative? && s.store.work[w].cycle == ev.cycle ==> w == ev.work)
  {
    assert ResultOk(s, s.vol.queue[0]);
  }

  lemma KindsNext(s: State, step: Step)
    requires Inv(s) && KindsInv(s) && Enabled(s, step)
    ensures KindsInv(Next(s, step))
  {
    var s' := Next(s, step);
    RowsAfter(s, step);
    forall m, w | m in s'.store.rows && w in s'.store.work && s'.store.work[w].kind.Generative?
                  && s'.store.rows[m].cycle == s'.store.work[w].cycle
      ensures s'.store.rows[m].kind == OutKindOf(s'.store.work[w].kind)
    {
      ItemNext(s, step, w);
      if s.vol.queue != [] { SameCycle(s, w); }
    }
  }

  ghost predicate SomeReply(s: State, run: seq<Step>, w: Id)
    requires ValidRun(s, run)
    decreases |run|
  {
    run != [] && (Replies(s, run[0], w) || SomeReply(Next(s, run[0]), run[1..], w))
  }

  lemma {:induction false} RepliedRun(s: State, run: seq<Step>, w: Id)
    requires Inv(s) && KindsInv(s) && ValidRun(s, run)
    ensures KindsInv(Exec(s, run)) && (Replied(Exec(s, run), w) <==> Replied(s, w) || SomeReply(s, run, w))
    decreases |run|
  {
    hide Inv, KindsInv, Next, Enabled, Replied, Replies;
    if run != [] {
      InvNext(s, run[0]);
      KindsNext(s, run[0]);
      RepliedNext(s, run[0], w);
      RepliedRun(Next(s, run[0]), run[1..], w);
    }
  }

  // From an empty store, through retries, stops and crashes: a cycle has a reply if and only if some
  // step reduced a result of its item that spoke and was allowed, and then it has exactly one, of
  // its kind.
  lemma ReplyExactly(caps: Caps, run: seq<Step>, w: Id)
    requires ValidRun(Init(caps), run) && w in Exec(Init(caps), run).store.work
    requires Exec(Init(caps), run).store.work[w].kind.Generative?
    ensures var s := Exec(Init(caps), run);
            var item := s.store.work[w];
            && ((exists m :: m in s.store.rows && s.store.rows[m].cycle == item.cycle) <==> SomeReply(Init(caps), run, w))
            && (forall m :: m in s.store.rows && s.store.rows[m].cycle == item.cycle ==> s.store.rows[m].kind == OutKindOf(item.kind))
            && (forall m, n :: m in s.store.rows && n in s.store.rows && s.store.rows[m].cycle == s.store.rows[n].cycle ==> m == n)
  {
    RepliedRun(Init(caps), run, w);
    InvRun(Init(caps), run);
  }

  // ---------------------------------------------------------------- embedding results and backfills

  // The result of an embedding completes its item, once, and asks for a new schedule exactly when it
  // merged a topic; a backfill starts the items it makes and asks for nothing.
  lemma EmbeddingAsks(d: Store, w: Id, at: int, ch: Choice)
    ensures var o, live := HandleEmbeddingResult(d, w, ch), !(w in d.work && d.work[w].status == COMPLETED);
            && o.dispatch == {} && !o.acted && (o.reschedule <==> live && ch.merged)
            && o.store == (if w in d.work then d.(work := d.work[w := d.work[w].(status := COMPLETED)]) else d)
    ensures var o := HandleReconcile(d, at, ch);
            && o.dispatch == ch.made && !o.acted && !o.reschedule && o.store == d.(work := o.store.work)
            && OnlyMakes(d.work, o.store.work, ch.made) && Makes(o.store.work, ch.made, Embedding, ch.cycle, at)
  {
    if w in d.work && d.work[w].status == COMPLETED { assert d.work[w := d.work[w].(status := COMPLETED)] == d.work; }
    MadeItems(d.work, ch.made, ch.cycle, at);
    hide AddEmbeddings, Makes, OnlyMakes;
  }
}
