// How often an obligation resolves: what decides its status, when a settled one can change, and
// that it resolves at most once unless a worker returned the reserved error key for its item.
module AgentSettled {
  import opened Base
  import opened Agent
  import opened AgentWork
  import opened AgentInbox
  import opened AgentDuty
  import opened AgentOutlook

  // The step reduces a spoken answer of item w.
  ghost predicate Answers(s: State, step: Step, w: Id) {
    Reduces(s, step, w) && s.vol.queue[0].LlmResult? && s.vol.queue[0].body.Speak?
  }

  // ---------------------------------------------------------------- what decides the status

  // A generative result, seen from the obligation of its own item.
  lemma ResultDecides(d: Store, w: Id, cycle: Id, body: Body, at: int, ch: Choice)
    requires w in d.work && d.work[w].cycle == cycle && !d.work[w].status.COMPLETED?
    requires d.work[w].kind == Generative(MandatoryCycle) && w in d.obligations
    ensures var o := HandleLlmResult(d, w, cycle, body, at, ch).store.obligations;
            w in o && o[w].status == if body.Speak? then SATISFIED else FAILED
  {
  }

  // The result at the head of the queue belongs to an item that is not completed.
  lemma HeadResult(s: State, w: Id)
    requires Inv(s) && s.vol.queue != [] && Carries(s.vol.queue[0], w) && w in s.store.obligations
    ensures var ev := s.vol.queue[0];
            && ev.LlmResult? && w in s.store.work && s.store.work[w].cycle == ev.cycle
            && !s.store.work[w].status.COMPLETED? && s.store.work[w].kind == Generative(MandatoryCycle)
  {
    assert ResultOk(s, s.vol.queue[0]);
  }

  lemma ReducedDecides(s: State, step: Step, w: Id)
    requires Inv(s) && Enabled(s, step) && Reduces(s, step, w) && w in s.store.obligations
    ensures w in Next(s, step).store.obligations
    ensures Next(s, step).store.obligations[w].status == if Answers(s, step, w) then SATISFIED else FAILED
  {
    HeadResult(s, w);
    hide HandleLlmResult, WorkInv, InboxInv, DutyInv;
    var ev, p, ch := s.vol.queue[0], Pop(s), step.ch;
    ResultDecides(p.store, w, ev.cycle, ev.body, ev.at, ch);
    assert Handle(p, ev, ch) == Some(HandleLlmResult(p.store, w, ev.cycle, ev.body, ev.at, ch));
  }

  // An obligation is what the last result of its item made it: a step that reduces one satisfies
  // it exactly when that result is a spoken answer and fails it otherwise; no other step touches it.
  lemma StatusNext(s: State, step: Step, w: Id)
    requires Inv(s) && Enabled(s, step) && w in s.store.obligations
    ensures w in Next(s, step).store.obligations
    ensures Next(s, step).store.obligations[w].status
            == if Answers(s, step, w) then SATISFIED
               else if Reduces(s, step, w) then FAILED
               else s.store.obligations[w].status
  {
    hide Inv, Next;
    if Reduces(s, step, w) { ReducedDecides(s, step, w); } else { ObligationFrame(s, step, w); }
  }

  // ---------------------------------------------------------------- settled for good

  // The obligation has an outcome and its item is over.
  ghost predicate Settled(s: State, w: Id) {
    && w in s.store.obligations && !s.store.obligations[w].status.DUTY_PENDING?
    && w in s.store.work && Terminal(s.store.work[w].status)
  }

  lemma SettledKept(s: State, step: Step, w: Id)
    requires Inv(s) && Enabled(s, step) && Settled(s, w)
    ensures Settled(Next(s, step), w) && Next(s, step).store.obligations[w] == s.store.obligations[w]
  {
    RowNext(s, step, w);
    if Reduces(s, step, w) {
      HeadResult(s, w);
      assert ResultOk(s, s.vol.queue[0]) && DutyOk(s.store, s.forged, w);
      ReportOnDuty(s, step, w);
    } else {
      ObligationFrame(s, step, w);
    }
  }

  // Once settled with its item over, an obligation never changes again in any way, in any run.
  lemma {:induction false} SettledRun(s: State, run: seq<Step>, w: Id)
    requires Inv(s) && ValidRun(s, run) && Settled(s, w)
    ensures Settled(Exec(s, run), w) && Exec(s, run).store.obligations[w] == s.store.obligations[w]
    decreases |run|
  {
    hide Inv, Next, Settled;
    if run != [] {
      InvNext(s, run[0]);
      SettledKept(s, run[0], w);
      SettledRun(Next(s, run[0]), run[1..], w);
    }
  }

  lemma SatisfiedIsSettled(s: State, w: Id)
    requires Inv(s) && w in s.store.obligations && s.store.obligations[w].status.SATISFIED?
    ensures Settled(s, w)
  {
    assert DutyOk(s.store, s.forged, w);
  }

  // ---------------------------------------------------------------- a failed obligation

  ghost predicate Failed(s: State, w: Id) { w in s.store.obligations && s.store.obligations[w].status.FAILED? }

  ghost predicate Satisfied(s: State, w: Id) { w in s.store.obligations && s.store.obligations[w].status.SATISFIED? }

  // Some step of the run reduces a spoken answer of item w.
  ghost predicate SomeAnswer(s: State, run: seq<Step>, w: Id)
    requires ValidRun(s, run)
    decreases |run|
  {
    run != [] && (Answers(s, run[0], w) || SomeAnswer(Next(s, run[0]), run[1..], w))
  }

  // A failed obligation ends satisfied exactly when a later step reduces an answer of its item,
  // and otherwise stays failed.
  lemma {:induction false} FailedRun(s: State, run: seq<Step>, w: Id)
    requires Inv(s) && ValidRun(s, run) && Failed(s, w)
    ensures if SomeAnswer(s, run, w) then Satisfied(Exec(s, run), w) else Failed(Exec(s, run), w)
    decreases |run|
  {
    hide Inv, Next, Answers;
    if run != [] {
      var s' := Next(s, run[0]);
      InvNext(s, run[0]);
      StatusNext(s, run[0], w);
      if Answers(s, run[0], w) {
        SatisfiedIsSettled(s', w);
        SettledRun(s', run[1..], w);
      } else {
        FailedRun(s', run[1..], w);
      }
    }
  }

  // ---------------------------------------------------------------- how often an obligation resolves

  // How many steps of the run give the obligation of w another status.
  ghost function Resolutions(s: State, run: seq<Step>, w: Id): nat
    requires ValidRun(s, run)
    decreases |run|
  {
    if run == [] then 0
    else
      var s' := Next(s, run[0]);
      Resolutions(s', run[1..], w)
      + if w in s.store.obligations && w in s'.store.obligations
           && s'.store.obligations[w].status != s.store.obligations[w].status then 1 else 0
  }

  // Some step of the run answers an obligation that had failed.
  ghost predicate Overturned(s: State, run: seq<Step>, w: Id)
    requires ValidRun(s, run)
    decreases |run|
  {
    run != [] && ((Failed(s, w) && Answers(s, run[0], w)) || Overturned(Next(s, run[0]), run[1..], w))
  }

  lemma HandleAddsPending(s: State, ev: Event, ch: Choice, w: Id)
    requires Handle(s, ev, ch).Some? && w !in s.store.obligations
    ensures var o := Handle(s, ev, ch).value.store.obligations; w in o ==> o[w].status.DUTY_PENDING?
  {
  }

  lemma ProcessAddsPending(s: State, ev: Event, ch: Choice, leased: set<Id>, fault: bool, finite: bool, w: Id)
    requires w !in s.store.obligations
    ensures var o := Process(s, ev, ch, leased, fault, finite).store.obligations; w in o ==> o[w].status.DUTY_PENDING?
  {
    hide Handle;
    if Handle(s, ev, ch).Some? { HandleAddsPending(s, ev, ch, w); }
  }

  // An obligation is created pending.
  lemma CreatedPending(s: State, step: Step, w: Id)
    requires Inv(s) && Enabled(s, step) && w !in s.store.obligations
    ensures var o := Next(s, step).store.obligations; w in o ==> o[w].status.DUTY_PENDING?
  {
    hide Process, Handle, WorkInv, InboxInv, DutyInv, Unreduced, Fresh;
    match step
    case Reduce(ch, leased, fault, finite) => ProcessAddsPending(Pop(s), s.vol.queue[0], ch, leased, fault, finite, w);
    case DrainNext(ch) => ProcessAddsPending(Pop(s), s.vol.queue[0], ch, {}, true, false, w);
    case ReplayNext(ch, finite) =>
      ProcessAddsPending(PopReplay(s), s.vol.queue[0], ch, All(PopReplay(s), s.vol.queue[0], ch), false, finite, w);
    case StartEnds(ch, at, finite) => ProcessAddsPending(s, Reconcile(at), ch, All(s, Reconcile(at), ch), false, finite, w);
    case _ => OtherOnTables(s, step);
  }

  // From a state in which the obligation is unborn or pending it resolves at most twice, and twice
  // exactly when a step answers it after it had failed.
  lemma {:induction false} ResolvesExactly(s: State, run: seq<Step>, w: Id)
    requires Inv(s) && ValidRun(s, run)
    ensures !Failed(s, w) && !Satisfied(s, w) ==>
              Resolutions(s, run, w) <= 2 && (Resolutions(s, run, w) == 2 <==> Overturned(s, run, w))
    ensures Failed(s, w) ==> Resolutions(s, run, w) == if Overturned(s, run, w) then 1 else 0
    ensures Satisfied(s, w) ==> Resolutions(s, run, w) == 0 && !Overturned(s, run, w)
    decreases |run|
  {
    hide Inv, Next, Answers, Reduces;
    if run != [] {
      InvNext(s, run[0]);
      ResolvesExactly(Next(s, run[0]), run[1..], w);
      if w !in s.store.obligations {
        CreatedPending(s, run[0], w);
      } else {
        StatusNext(s, run[0], w);
        if Satisfied(s, w) {
          SatisfiedIsSettled(s, w);
          SettledKept(s, run[0], w);
        }
      }
    }
  }

  // ---------------------------------------------------------------- at most once

  // No worker returns a body that holds the reserved key for item w.
  predicate NoForgery(run: seq<Step>, w: Id) {
    forall i :: 0 <= i < |run| && run[i].TaskReturns? && run[i].task.work == w ==> !run[i].body.Sentinel?
  }

  lemma ForgedNext(s: State, step: Step, w: Id)
    requires Enabled(s, step) && w !in s.forged
    requires step.TaskReturns? && step.task.work == w ==> !step.body.Sentinel?
    ensures w !in Next(s, step).forged
  {
  }

  // An honest failure ends its item, so no answer of it is queued.
  lemma HonestFailure(s: State, step: Step, w: Id)
    requires Inv(s) && Failed(s, w) && w !in s.forged
    ensures !Answers(s, step, w)
  {
    if Reduces(s, step, w) {
      HeadResult(s, w);
      assert ResultOk(s, s.vol.queue[0]) && DutyOk(s.store, s.forged, w);
    }
  }

  lemma {:induction false} NeverOverturned(s: State, run: seq<Step>, w: Id)
    requires Inv(s) && ValidRun(s, run) && w !in s.forged && NoForgery(run, w)
    ensures !Overturned(s, run, w)
    decreases |run|
  {
    hide Inv, Next, Answers;
    if run != [] {
      InvNext(s, run[0]);
      ForgedNext(s, run[0], w);
      if Failed(s, w) { HonestFailure(s, run[0], w); }
      NeverOverturned(Next(s, run[0]), run[1..], w);
    }
  }

  // From an empty store, through retries, stops and crashes: an obligation resolves at most twice;
  // twice exactly when an answer overturns a failure; and at most once when no worker returns the
  // reserved error key for its item.
  lemma ResolvesAtMostOnce(caps: Caps, run: seq<Step>, w: Id)
    requires ValidRun(Init(caps), run)
    ensures Resolutions(Init(caps), run, w) <= 2
    ensures Resolutions(Init(caps), run, w) == 2 <==> Overturned(Init(caps), run, w)
    ensures NoForgery(run, w) ==> Resolutions(Init(caps), run, w) <= 1
  {
    ResolvesExactly(Init(caps), run, w);
    if NoForgery(run, w) { NeverOverturned(Init(caps), run, w); }
  }
}
