// When a failed obligation is really over: exactly when its item is.
module AgentReopen {
  import opened Base
  import opened Agent
  import opened AgentWork
  import opened AgentInbox
  import opened AgentDuty
  import opened AgentOutlook
  import opened AgentRuns
  import opened AgentSettled

  // ---------------------------------------------------------------- fresh ids

  lemma {:induction false} Bound(used: set<Id>) returns (b: Id)
    ensures forall x :: x in used ==> x < b
  {
    b := 0;
    if used != {} {
      var x :| x in used;
      var rest := Bound(used - {x});
      b := if rest > x then rest else x + 1;
      assert forall y :: y in used ==> y == x || y in used - {x};
    }
  }

  // A choice of fresh ids for a silent turn that proposes nothing.
  lemma FreshChoice(d: Store) returns (ch: Choice)
    ensures Fresh(d, ch) && ch.path.SilentPath? && !ch.embed && ch.made == {}
  {
    var w := Bound(d.work.Keys);
    var m := Bound(d.rows.Keys);
    ch := Choice(SilentPath, false, false, false, 0, w, w + 1, {}, m);
  }

  lemma {:induction false} ListOf(ids: set<Id>) returns (list: seq<Id>)
    ensures Distinct(list) && forall w :: w in list <==> w in ids
  {
    list := [];
    if ids != {} {
      var x :| x in ids;
      var rest := ListOf(ids - {x});
      list := rest + [x];
    }
  }

  // ---------------------------------------------------------------- a restart that runs the item again

  // The obligation failed while its item can still be run.
  ghost predicate Open(s: State, w: Id) {
    && Inv(s) && Failed(s, w) && w in s.store.work && !Terminal(s.store.work[w].status)
  }

  // A start in progress that holds nothing but recovered messages, and has yet to dispatch w or
  // has just done so.
  ghost predicate Restarting(s: State, w: Id) {
    && Open(s, w) && s.vol.phase.Starting? && s.vol.phase.replay == |s.vol.queue|
    && (w in s.vol.phase.todo || exists t :: t in s.vol.tasks && t.work == w)
  }

  // A step that reduces no result keeps the failure.
  lemma FailedKept(s: State, step: Step, w: Id)
    requires Inv(s) && Failed(s, w) && Enabled(s, step) && !Reduces(s, step, w)
    ensures Inv(Next(s, step)) && Failed(Next(s, step), w)
  {
    hide Inv, Next, Enabled, Reduces;
    InvNext(s, step);
    StatusNext(s, step, w);
  }

  lemma RecoversOpen(s: State, w: Id) returns (todo: seq<Id>)
    requires Open(s, w) && s.vol.phase.Down?
    ensures Enabled(s, Recover(todo)) && Restarting(Next(s, Recover(todo)), w)
  {
    todo := ListOf(set v | v in s.store.work && s.store.work[v].status in {PENDING, RUNNING});
    FailedKept(s, Recover(todo), w);
  }

  lemma ReplaysOpen(s: State, w: Id) returns (ch: Choice)
    requires Restarting(s, w) && s.vol.phase.replay > 0
    ensures Enabled(s, ReplayNext(ch, false)) && Restarting(Next(s, ReplayNext(ch, false)), w)
    ensures Next(s, ReplayNext(ch, false)).vol.phase == Starting(s.vol.phase.replay - 1, s.vol.phase.todo)
  {
    ch := FreshChoice(s.store);
    ReplaysMessages(s);
    var ev, p := s.vol.queue[0], PopReplay(s);
    assert Handle(s, ev, ch).Some? && Handle(p, ev, ch) == Handle(s, ev, ch);
    assert Handle(p, ev, ch).value.dispatch == {} && Handle(p, ev, ch).value.store.work == s.store.work;
    FailedKept(s, ReplayNext(ch, false), w);
    SameWork(s, ch);
  }

  // A silent replay changes neither the work table nor the tasks.
  lemma SameWork(s: State, ch: Choice)
    requires s.vol.phase.Starting? && s.vol.phase.replay > 0 && s.vol.queue != [] && s.vol.queue[0].Human?
    requires Fresh(s.store, ch) && ch.path.SilentPath? && !ch.embed && Handle(s, s.vol.queue[0], ch).Some?
    ensures var s' := Next(s, ReplayNext(ch, false));
            && s'.store.work == s.store.work && s'.vol.tasks == s.vol.tasks && s'.vol.queue == s.vol.queue[1..]
            && s'.vol.phase == Starting(s.vol.phase.replay - 1, s.vol.phase.todo)
  {
    var ev, p := s.vol.queue[0], PopReplay(s);
    assert Handle(p, ev, ch) == Handle(s, ev, ch);
    assert All(p, ev, ch) == {};
    var mid := Commit(p, Handle(p, ev, ch).value);
    assert {} * mid.store.work.Keys == {};
    assert Lease(mid.store.work, {}) == mid.store.work;
    assert Dispatch(mid, {}).vol.tasks == mid.vol.tasks;
  }

  lemma DispatchShape(s: State)
    requires Enabled(s, DispatchNext)
    ensures var s', v := Next(s, DispatchNext), s.vol.phase.todo[0];
            && s'.vol.phase == Starting(0, s.vol.phase.todo[1..]) && s'.vol.queue == s.vol.queue
            && s.vol.tasks <= s'.vol.tasks && s'.store.work.Keys == s.store.work.Keys
            && (v in s.store.work ==> Task(v, Leased(s.store.work[v]), 1) in s'.vol.tasks)
            && (forall w :: w in s.store.work && w != v ==> s'.store.work[w] == s.store.work[w])
            && (v in s.store.work ==> s'.store.work[v].status.RUNNING?)
  {
  }

  lemma DispatchesOpen(s: State, w: Id)
    requires Restarting(s, w) && s.vol.phase.replay == 0 && s.vol.phase.todo != []
    ensures Enabled(s, DispatchNext) && Restarting(Next(s, DispatchNext), w)
    ensures Next(s, DispatchNext).vol.phase == Starting(0, s.vol.phase.todo[1..])
  {
    hide Inv, Next;
    FailedKept(s, DispatchNext, w);
    DispatchShape(s);
    var v := s.vol.phase.todo[0];
    assert w in s.vol.phase.todo && w != v ==> w in s.vol.phase.todo[1..];
    assert v == w ==> Task(w, Leased(s.store.work[w]), 1).work == w;
  }

  // The rest of such a start, one step after the other.
  lemma {:induction false} StartsOpen(s: State, w: Id) returns (run: seq<Step>)
    requires Restarting(s, w)
    ensures ValidRun(s, run) && Restarting(Exec(s, run), w) && Exec(s, run).vol.phase == Starting(0, [])
    decreases s.vol.phase.replay, |s.vol.phase.todo|
  {
    hide Inv, Next, Enabled;
    if s.vol.phase.replay > 0 {
      var ch := ReplaysOpen(s, w);
      var rest := StartsOpen(Next(s, ReplayNext(ch, false)), w);
      run := [ReplayNext(ch, false)] + rest;
      assert run[1..] == rest;
    } else if s.vol.phase.todo != [] {
      DispatchesOpen(s, w);
      var rest := StartsOpen(Next(s, DispatchNext), w);
      run := [DispatchNext] + rest;
      assert run[1..] == rest;
    } else {
      run := [];
    }
  }

  // The last steps: the start ends, its worker answers, the answer is reduced.
  ghost predicate Running(s: State, w: Id, t: Task) {
    Open(s, w) && s.vol.phase.Up? && s.vol.queue == [] && t in s.vol.tasks && t.work == w
  }

  // Ending a start that proposes nothing changes neither work, tasks nor queue.
  lemma EndsQuietly(s: State, ch: Choice)
    requires s.vol.phase == Starting(0, []) && Fresh(s.store, ch) && ch.made == {}
    ensures var s' := Next(s, StartEnds(ch, 0, false));
            && s'.store.work == s.store.work && s'.vol.tasks == s.vol.tasks && s'.vol.queue == s.vol.queue && s'.vol.phase.Up?
  {
    assert All(s, Reconcile(0), ch) == {};
    var mid := Commit(s, Handle(s, Reconcile(0), ch).value);
    assert mid.store.work == s.store.work && {} * mid.store.work.Keys == {};
    assert Lease(mid.store.work, {}) == mid.store.work;
    assert Dispatch(mid, {}).vol.tasks == mid.vol.tasks;
  }

  lemma LeasedTask(s: State, t: Task)
    requires Inv(s) && t in s.vol.tasks
    ensures t.work in s.store.work && s.store.work[t.work].status.RUNNING?
  {
    assert TaskOk(s, t);
  }

  lemma EndsOpen(s: State, w: Id) returns (ch: Choice, t: Task)
    requires Restarting(s, w) && s.vol.phase == Starting(0, [])
    ensures Enabled(s, StartEnds(ch, 0, false)) && Running(Next(s, StartEnds(ch, 0, false)), w, t)
  {
    hide Inv, Next;
    ch := FreshChoice(s.store);
    t :| t in s.vol.tasks && t.work == w;
    LeasedTask(s, t);
    EndsQuietly(s, ch);
    FailedKept(s, StartEnds(ch, 0, false), w);
  }

  lemma AnswersOpen(s: State, w: Id, t: Task) returns (a: Step, b: Step)
    requires Running(s, w, t)
    ensures Enabled(s, a) && Enabled(Next(s, a), b) && Satisfied(Next(Next(s, a), b), w)
  {
    assert TaskOk(s, t) && s.store.work[w].kind == Generative(MandatoryCycle);
    var ch := FreshChoice(s.store);
    a := TaskReturns(t, Speak, 0);
    FailedKept(s, a, w);
    var s' := Next(s, a);
    assert s'.vol.queue == [LlmResult(w, t.held.cycle, Speak, 0)] && s'.store == s.store;
    b := Reduce(ch, All(Pop(s'), s'.vol.queue[0], ch), false, false);
    AllEnabled(Pop(s'), s'.vol.queue[0], ch);
    assert Enabled(s', b);
    assert Answers(s', b, w);
    StatusNext(s', b, w);
  }

  lemma AnswerFollows(s: State, w: Id) returns (run: seq<Step>)
    requires Restarting(s, w)
    ensures ValidRun(s, run) && Satisfied(Exec(s, run), w)
  {
    hide Inv, Next, Enabled;
    run := StartsOpen(s, w);
    var up := Exec(s, run);
    var ch, t := EndsOpen(up, w);
    var a, b := AnswersOpen(Next(up, StartEnds(ch, 0, false)), w, t);
    Extend(s, run, StartEnds(ch, 0, false));
    run := run + [StartEnds(ch, 0, false)];
    Extend(s, run, a);
    run := run + [a];
    Extend(s, run, b);
    run := run + [b];
  }

  lemma RestartAnswers(s: State, w: Id) returns (run: seq<Step>)
    requires Open(s, w) && s.vol.phase.Down?
    ensures ValidRun(s, run) && Satisfied(Exec(s, run), w)
  {
    hide Inv, Next, Enabled;
    var todo := RecoversOpen(s, w);
    var rest := AnswerFollows(Next(s, Recover(todo)), w);
    run := [Recover(todo)] + rest;
    assert run[1..] == rest;
  }

  lemma Reopens(s: State, w: Id) returns (run: seq<Step>)
    requires Open(s, w)
    ensures ValidRun(s, run) && Satisfied(Exec(s, run), w)
  {
    if s.vol.phase.Down? {
      run := RestartAnswers(s, w);
    } else {
      FailedKept(s, Crash, w);
      var rest := RestartAnswers(Next(s, Crash), w);
      run := [Crash] + rest;
      assert run[1..] == rest;
    }
  }

  // A failed obligation stays failed in every continuation exactly when its item is completed or
  // given up for good: the guard is the status of the item when the failure is recorded.
  lemma FailedForGood(s: State, w: Id)
    requires Inv(s) && Failed(s, w)
    ensures (forall run :: ValidRun(s, run) ==> Failed(Exec(s, run), w))
            <==> w in s.store.work && Terminal(s.store.work[w].status)
  {
    HasWork(s, w);
    if Terminal(s.store.work[w].status) {
      forall run | ValidRun(s, run) ensures Failed(Exec(s, run), w) { SettledRun(s, run, w); }
    } else {
      var run := Reopens(s, w);
      assert !Failed(Exec(s, run), w);
    }
  }
}
