// The delivery pump: passes over a snapshot of pending messages, interleaved with reductions.
//
// A pass holds the lock from `Begin` to `End`, but while it awaits transport the reducer goes on
// changing rows and reducing earlier reports. Each step below is what happens between two awaits.
// `history` records what was sent and what became of it. A restart of the service makes a new pump:
// nothing in flight, no queued report, no burst time, and a monotonic clock of its own.
module Pump {
  import opened Base
  import opened Outbox

  datatype Notice = Notice(id: Id, delivered: bool, error: string)

  datatype Act =
    | Begun(mandatory: seq<Id>)
    | Sends(id: Id, kind: Kind, at: int)
    | Sent(id: Id, kind: Kind, at: int)
    | Cut(id: Id, kind: Kind)              // the pass was cancelled while it awaited this send
    | Reduced(id: Id, delivered: bool)
    | Restarted

  // `begun` is the place of the pass in the history.
  datatype Pass =
    | Idle
    | First(todo: seq<Id>, later: seq<Id>, sending: Option<Id>, begun: nat)    // mandatory items
    | Second(todo: seq<Id>, may: bool, sending: Option<Id>, begun: nat)        // proactive items

  datatype State = State(
    box: Box, inflight: set<Id>, queue: seq<Notice>, last: Option<int>, clock: int, window: int,
    pass: Pass, history: seq<Act>)

  function Init(window: int): State {
    State(Empty(), {}, [], None, 0, window, Idle, [])
  }

  predicate Deliverable(s: State, m: Id, kind: Kind) {
    m in s.box.rows && m !in s.inflight && s.box.rows[m].status == PENDING_DELIVERY && s.box.rows[m].kind == kind
  }

  predicate BurstElapsed(s: State) { s.last.None? || s.clock - s.last.value >= s.window }

  datatype Step =
    | Begin(mandatory: seq<Id>, proactive: seq<Id>)
    | SendFirst
    | FirstSent(delivered: bool, error: string)
    | TurnToProactive
    | DropNext(error: string)
    | SkipNext
    | SendSecond
    | SecondSent(delivered: bool, error: string)
    | End
    | Cancel
    | Reduce(at: int)
    | ReduceFails
    | Drain(at: int)
    | Tick(elapsed: nat)
    | Restart(clock: int)
    | Other(step: Outbox.Step)

  ghost predicate Enabled(s: State, step: Step) {
    match step
    case Begin(mandatory, proactive) =>
      && s.pass.Idle? && Distinct(mandatory) && Distinct(proactive)
      && (forall m :: m in mandatory <==> Deliverable(s, m, MANDATORY))
      && (forall m :: m in proactive <==> Deliverable(s, m, PROACTIVE))
    case SendFirst => s.pass.First? && s.pass.sending.None? && s.pass.todo != []
    case FirstSent(_, _) => s.pass.First? && s.pass.sending.Some?
    case TurnToProactive => s.pass.First? && s.pass.sending.None? && s.pass.todo == []
    case DropNext(_) => s.pass.Second? && s.pass.sending.None? && s.pass.todo != []
    case SkipNext => s.pass.Second? && s.pass.sending.None? && s.pass.todo != [] && !s.pass.may
    case SendSecond => s.pass.Second? && s.pass.sending.None? && s.pass.todo != [] && s.pass.may
    case SecondSent(_, _) => s.pass.Second? && s.pass.sending.Some?
    case End => s.pass.Second? && s.pass.sending.None? && s.pass.todo == []
    case Cancel => !s.pass.Idle? && s.pass.sending.Some?
    case Reduce(_) => s.queue != []
    case ReduceFails => s.queue != []
    case Drain(_) => s.queue != []
    case Tick(_) => true
    case Restart(_) => true
    case Other(step) => !step.Report? && Outbox.Enabled(s.box, step)
  }

  // A report is queued; its message stays in the in-flight set until the report is reduced.
  function Reports(s: State, id: Id, delivered: bool, error: string): State {
    s.(inflight := s.inflight + {id}, queue := s.queue + [Notice(id, delivered, error)])
  }

  function Apply(s: State, at: int): State
    requires s.queue != []
  {
    var r := s.queue[0];
    s.(box := Result(s.box, r.id, r.delivered, r.error, at), queue := s.queue[1..],
       history := s.history + [Reduced(r.id, r.delivered)])
  }

  function Next(s: State, step: Step): State
    requires Enabled(s, step)
  {
    match step
    case Begin(mandatory, proactive) =>
      s.(pass := First(mandatory, proactive, None, |s.history|), history := s.history + [Begun(mandatory)])
    case SendFirst =>
      var m := s.pass.todo[0];
      s.(inflight := s.inflight + {m}, pass := First(s.pass.todo[1..], s.pass.later, Some(m), s.pass.begun),
         history := s.history + [Sends(m, MANDATORY, s.clock)])
    case FirstSent(delivered, error) =>
      var m := s.pass.sending.value;
      Reports(s, m, delivered, error).(pass := First(s.pass.todo, s.pass.later, None, s.pass.begun),
                                       history := s.history + [Sent(m, MANDATORY, s.clock)])
    case TurnToProactive => s.(pass := Second(s.pass.later, BurstElapsed(s), None, s.pass.begun))
    case DropNext(error) =>
      Reports(s, s.pass.todo[0], false, error).(pass := Second(s.pass.todo[1..], s.pass.may, None, s.pass.begun))
    case SkipNext => s.(pass := Second(s.pass.todo[1..], s.pass.may, None, s.pass.begun))
    case SendSecond =>
      var m := s.pass.todo[0];
      s.(inflight := s.inflight + {m}, pass := Second(s.pass.todo[1..], s.pass.may, Some(m), s.pass.begun),
         history := s.history + [Sends(m, PROACTIVE, s.clock)])
    case SecondSent(delivered, error) =>
      var m := s.pass.sending.value;
      Reports(s, m, delivered, error).(pass := Second(s.pass.todo, false, None, s.pass.begun), last := Some(s.clock),
                                       history := s.history + [Sent(m, PROACTIVE, s.clock)])
    case End => s.(pass := Idle)
    case Cancel =>
      var kind := if s.pass.First? then MANDATORY else PROACTIVE;
      s.(pass := Idle, history := s.history + [Cut(s.pass.sending.value, kind)])
    case Reduce(at) =>
      var s' := Apply(s, at);
      s'.(inflight := s.inflight - {s.queue[0].id})
    case ReduceFails => s.(queue := s.queue[1..])
    case Drain(at) => Apply(s, at)
    case Tick(elapsed) => s.(clock := s.clock + elapsed)
    case Restart(clock) => State(s.box, {}, [], None, clock, s.window, Idle, s.history + [Restarted])
    case Other(step) => s.(box := Outbox.Next(s.box, step))
  }

  ghost predicate ValidRun(s: State, run: seq<Step>)
    decreases |run|
  {
    run == [] || (Enabled(s, run[0]) && ValidRun(Next(s, run[0]), run[1..]))
  }

  function Exec(s: State, run: seq<Step>): State
    requires ValidRun(s, run)
    decreases |run|
  {
    if run == [] then s else Exec(Next(s, run[0]), run[1..])
  }

  // ---------------------------------------------------------------- what is promised of a history

  predicate IsSend(a: Act, m: Id) { a.Sends? && a.id == m }

  // What allows a message to be sent again: its failure was reduced, or the service restarted.
  predicate Frees(a: Act, m: Id) { a == Reduced(m, false) || a.Restarted? }

  // Within a session no message is sent again before a failed result of its previous send was reduced.
  ghost predicate NoResend(h: seq<Act>) {
    forall i, j, m :: 0 <= i < j < |h| && IsSend(h[i], m) && IsSend(h[j], m) ==> exists k :: i < k < j && Frees(h[k], m)
  }

  // ... and in no session after a delivery of it was reduced.
  ghost predicate NoSendAfterDelivery(h: seq<Act>) {
    forall i, j, m :: 0 <= i < j < |h| && h[i] == Reduced(m, true) ==> !IsSend(h[j], m)
  }

  // Before a pass sends a proactive item it has sent every mandatory item of its snapshot.
  ghost predicate MandatoryFirst(h: seq<Act>) {
    forall j :: 0 <= j < |h| && h[j].Sends? && h[j].kind.PROACTIVE? ==> exists i :: 0 <= i < j && PassOf(h, i, j)
  }

  ghost predicate PassOf(h: seq<Act>, i: nat, j: nat)
    requires i < j <= |h|
  {
    && h[i].Begun? && (forall k :: i < k < j ==> !h[k].Begun?)
    && forall m :: m in h[i].mandatory ==> SentSince(h, i, j, m)
  }

  ghost predicate SentSince(h: seq<Act>, i: nat, j: nat, m: Id)
    requires i < j <= |h|
  {
    exists k :: i < k < j && IsSend(h[k], m)
  }

  predicate SameSession(h: seq<Act>, i: int, j: int) { forall k :: i < k < j && 0 <= k < |h| ==> !h[k].Restarted? }

  // Within a session a proactive send starts at least one burst window after every earlier one ended.
  ghost predicate Spaced(h: seq<Act>, window: int) {
    forall i, j :: 0 <= i < j < |h| && h[i].Sent? && h[i].kind.PROACTIVE? && h[j].Sends? && h[j].kind.PROACTIVE?
                   && SameSession(h, i, j)
      ==> h[j].at >= h[i].at + window
  }

  // ---------------------------------------------------------------- invariant

  // At most one report per message is outstanding, counting the send still under way.
  ghost predicate OneOutstanding(s: State) {
    && (forall i :: 0 <= i < |s.queue| ==> s.queue[i].id in s.inflight && s.queue[i].id in s.box.rows)
    && (forall i, j :: 0 <= i < j < |s.queue| ==> s.queue[i].id != s.queue[j].id)
    && (!s.pass.Idle? && s.pass.sending.Some? ==>
          && s.pass.sending.value in s.inflight && s.pass.sending.value in s.box.rows
          && forall i :: 0 <= i < |s.queue| ==> s.queue[i].id != s.pass.sending.value)
  }

  // Every send of m was followed by a reduced failure or a restart.
  ghost predicate Clear(h: seq<Act>, m: Id) {
    forall i :: 0 <= i < |h| && IsSend(h[i], m) ==> exists k :: i < k < |h| && Frees(h[k], m)
  }

  predicate Free(s: State, m: Id) {
    m in s.box.rows && m !in s.inflight && !s.box.rows[m].status.DELIVERED?
  }

  ghost predicate SnapshotInv(s: State) {
    match s.pass
    case Idle => true
    case First(todo, later, _, _) =>
      && Distinct(todo) && Distinct(later)
      && (forall m :: m in todo ==> Free(s, m) && s.box.rows[m].kind.MANDATORY?)
      && (forall m :: m in later ==> Free(s, m) && s.box.rows[m].kind.PROACTIVE?)
    case Second(todo, _, _, _) => Distinct(todo) && forall m :: m in todo ==> Free(s, m) && s.box.rows[m].kind.PROACTIVE?
  }

  ghost predicate SendsInv(s: State) {
    && (forall i :: 0 <= i < |s.history| && s.history[i].Sends? ==> s.history[i].id in s.box.rows)
    && (forall m :: Free(s, m) ==> Clear(s.history, m))
    && NoResend(s.history)
  }

  ghost predicate DeliveredInv(s: State) {
    && (forall i :: 0 <= i < |s.history| && s.history[i].Reduced? && s.history[i].delivered ==>
          s.history[i].id in s.box.rows && s.box.rows[s.history[i].id].status.DELIVERED?)
    && NoSendAfterDelivery(s.history)
  }

  ghost predicate OrderInv(s: State) {
    && MandatoryFirst(s.history)
    && match s.pass
       case Idle => true
       case First(todo, _, _, begun) =>
         && begun < |s.history| && s.history[begun].Begun?
         && (forall k :: begun < k < |s.history| ==> !s.history[k].Begun?)
         && forall m :: m in s.history[begun].mandatory ==> m in todo || SentSince(s.history, begun, |s.history|, m)
       case Second(_, _, _, begun) => begun < |s.history| && PassOf(s.history, begun, |s.history|)
  }

  ghost predicate BurstInv(s: State) {
    && Spaced(s.history, s.window)
    && (forall i :: 0 <= i < |s.history| && s.history[i].Sent? && s.history[i].kind.PROACTIVE?
                    && SameSession(s.history, i, |s.history|) ==>
          && s.last.Some? && s.history[i].at <= s.last.value
          && (s.pass.Second? && s.pass.may ==> s.history[i].at + s.window <= s.clock))
    && (s.last.Some? ==> s.last.value <= s.clock)
  }

  ghost predicate PumpInv(s: State) {
    OneOutstanding(s) && SnapshotInv(s) && SendsInv(s) && DeliveredInv(s) && OrderInv(s) && BurstInv(s)
  }

  // ---------------------------------------------------------------- preservation

  // How the rows change under any step: none disappears, kinds stay, DELIVERED stays, and only
  // the reduction of its own report delivers a row.
  ghost predicate RowsMove(s: State, s': State) {
    && (forall m :: m in s.box.rows ==> m in s'.box.rows && s'.box.rows[m].kind == s.box.rows[m].kind)
    && (forall m :: m in s.box.rows && s.box.rows[m].status.DELIVERED? ==> s'.box.rows[m].status.DELIVERED?)
    && (forall m :: m in s.box.rows && s'.box.rows[m].status.DELIVERED? ==>
          s.box.rows[m].status.DELIVERED? || (s.queue != [] && s.queue[0] == Notice(m, true, s.queue[0].error)))
    && (forall m :: m in s'.box.rows && m !in s.box.rows ==> !s'.box.rows[m].status.DELIVERED?)
  }

  // The changes made by the rest of the reducer.
  lemma OtherRows(b: Box, step: Outbox.Step)
    requires !step.Report? && Outbox.Enabled(b, step)
    ensures var b' := Outbox.Next(b, step);
            && (forall m :: m in b.rows ==> m in b'.rows && b'.rows[m].kind == b.rows[m].kind)
            && (forall m :: m in b.rows ==> (b'.rows[m].status.DELIVERED? <==> b.rows[m].status.DELIVERED?))
            && (forall m :: m in b'.rows && m !in b.rows ==> !b'.rows[m].status.DELIVERED?)
  {
  }

  lemma RowsNext(s: State, step: Step)
    requires Enabled(s, step)
    ensures RowsMove(s, Next(s, step))
  {
    hide Outbox.Next, Result;
    if step.Reduce? || step.Drain? {
      ReportShape(s.box, s.queue[0].id, s.queue[0].delivered, s.queue[0].error, step.at);
    } else if step.Other? {
      OtherRows(s.box, step.step);
    }
  }

  lemma DequeueKeeps(s: State, s': State)
    requires OneOutstanding(s) && s.queue != [] && s'.queue == s.queue[1..] && s'.pass == s.pass
    requires s'.inflight == s.inflight || s'.inflight == s.inflight - {s.queue[0].id}
    requires forall m :: m in s.box.rows ==> m in s'.box.rows
    ensures OneOutstanding(s')
  {
    assert forall i :: 0 <= i < |s'.queue| ==> s'.queue[i] == s.queue[i + 1];
  }

  predicate Dequeues(step: Step) { step.Reduce? || step.ReduceFails? || step.Drain? }

  predicate Takes(step: Step) { step.SendFirst? || step.SendSecond? || step.DropNext? }

  // A free message is taken off the list of a pass, to be sent or to be reported as dropped.
  lemma TakeKeeps(s: State, step: Step)
    requires OneOutstanding(s) && SnapshotInv(s) && Enabled(s, step) && Takes(step)
    ensures OneOutstanding(Next(s, step))
  {
    hide Outbox.Next, Result, Outbox.Enabled;
    assert Free(s, s.pass.todo[0]);
    assert forall i :: 0 <= i < |s.queue| ==> s.queue[i].id != s.pass.todo[0];
  }

  lemma OtherKeeps(s: State, step: Step)
    requires OneOutstanding(s) && Enabled(s, step) && !Dequeues(step) && !Takes(step)
    ensures OneOutstanding(Next(s, step))
  {
    RowsNext(s, step);
    hide Outbox.Next, Result, Outbox.Enabled, SnapshotInv;
  }

  lemma OutstandingNext(s: State, step: Step)
    requires OneOutstanding(s) && SnapshotInv(s) && Enabled(s, step)
    ensures OneOutstanding(Next(s, step))
  {
    if Takes(step) {
      TakeKeeps(s, step);
    } else if Dequeues(step) {
      RowsNext(s, step);
      hide OneOutstanding, SnapshotInv, Outbox.Next, Result, Outbox.Enabled;
      DequeueKeeps(s, Next(s, step));
    } else {
      OtherKeeps(s, step);
    }
  }

  lemma FreeNext(s: State, step: Step, m: Id)
    requires OneOutstanding(s) && Enabled(s, step) && Free(s, m)
    requires !((step.SendFirst? || step.SendSecond? || step.DropNext?) && s.pass.todo[0] == m)
    ensures Free(Next(s, step), m) && Next(s, step).box.rows[m].kind == s.box.rows[m].kind
  {
    RowsNext(s, step);
  }

  lemma SnapshotNext(s: State, step: Step)
    requires OneOutstanding(s) && SnapshotInv(s) && Enabled(s, step)
    ensures SnapshotInv(Next(s, step))
  {
    var s' := Next(s, step);
    if step.Begin? || s'.pass.Idle? { return; }
    forall m | Free(s, m) && !(Takes(step) && s.pass.todo[0] == m)
      ensures Free(s', m) && s'.box.rows[m].kind == s.box.rows[m].kind
    {
      FreeNext(s, step, m);
    }
    ListsShrink(s, step);
    hide Next, Enabled, OneOutstanding, Free;
  }

  // What a pass still has to do only gets shorter, from the front.
  lemma ListsShrink(s: State, step: Step)
    requires Enabled(s, step) && !step.Begin? && !Next(s, step).pass.Idle?
    ensures var s' := Next(s, step);
            && !s.pass.Idle? && (s'.pass.First? ==> s.pass.First? && s'.pass.later == s.pass.later)
            && s'.pass.todo == (if step.TurnToProactive? then s.pass.later
                                else if Takes(step) || step.SkipNext? then s.pass.todo[1..] else s.pass.todo)
            && (Takes(step) || step.SkipNext? ==> s.pass.todo != [])
            && (step.TurnToProactive? ==> s.pass.First? && s'.pass.Second?)
            && (!step.TurnToProactive? ==> (s.pass.First? <==> s'.pass.First?))
  {
    hide Outbox.Next, Outbox.Enabled, Result;
  }

  lemma ClearAppend(h: seq<Act>, a: Act, m: Id)
    requires !IsSend(a, m) && (Clear(h, m) || Frees(a, m))
    ensures Clear(h + [a], m)
  {
    var h' := h + [a];
    forall i | 0 <= i < |h'| && IsSend(h'[i], m) ensures exists k :: i < k < |h'| && Frees(h'[k], m) {
      if Clear(h, m) {
        assert IsSend(h[i], m);
        var k :| i < k < |h| && Frees(h[k], m);
        assert h'[k] == h[k];
      } else {
        assert Frees(h'[|h|], m);
      }
    }
  }

  lemma NoResendAppend(h: seq<Act>, a: Act)
    requires NoResend(h) && (a.Sends? ==> Clear(h, a.id))
    ensures NoResend(h + [a])
  {
    var h' := h + [a];
    forall i, j, m | 0 <= i < j < |h'| && IsSend(h'[i], m) && IsSend(h'[j], m)
      ensures exists k :: i < k < j && Frees(h'[k], m)
    {
      assert h'[i] == h[i];
      var k :| i < k < j && k < |h| && Frees(h[k], m);
      assert h'[k] == h[k];
    }
  }

  // Which act a step adds to the history, if any.
  function Adds(s: State, step: Step): seq<Act>
    requires Enabled(s, step)
  {
    match step
    case Begin(mandatory, _) => [Begun(mandatory)]
    case SendFirst => [Sends(s.pass.todo[0], MANDATORY, s.clock)]
    case FirstSent(_, _) => [Sent(s.pass.sending.value, MANDATORY, s.clock)]
    case SendSecond => [Sends(s.pass.todo[0], PROACTIVE, s.clock)]
    case SecondSent(_, _) => [Sent(s.pass.sending.value, PROACTIVE, s.clock)]
    case Reduce(_) => [Reduced(s.queue[0].id, s.queue[0].delivered)]
    case Drain(_) => [Reduced(s.queue[0].id, s.queue[0].delivered)]
    case Cancel => [Cut(s.pass.sending.value, if s.pass.First? then MANDATORY else PROACTIVE)]
    case Restart(_) => [Restarted]
    case _ => []
  }

  lemma HistoryNext(s: State, step: Step)
    requires Enabled(s, step)
    ensures Next(s, step).history == s.history + Adds(s, step)
  {
  }

  // A message not in flight after the step was either not in flight before, or its report is the
  // one just reduced.
  lemma BecomesFree(s: State, step: Step, m: Id)
    requires OneOutstanding(s) && Enabled(s, step) && Free(Next(s, step), m)
    ensures (Free(s, m) && !(Adds(s, step) != [] && IsSend(Adds(s, step)[0], m)))
            || (Adds(s, step) != [] && Frees(Adds(s, step)[0], m))
            || m !in s.box.rows
  {
    RowsNext(s, step);
    if step.Reduce? {
      ReportShape(s.box, s.queue[0].id, s.queue[0].delivered, s.queue[0].error, step.at);
    }
  }

  lemma SendsNext(s: State, step: Step)
    requires OneOutstanding(s) && SnapshotInv(s) && SendsInv(s) && Enabled(s, step)
    ensures SendsInv(Next(s, step))
  {
    var s' := Next(s, step);
    RowsNext(s, step);
    HistoryNext(s, step);
    var h, more := s.history, Adds(s, step);
    if more == [] { assert h + more == h; }
    forall m | Free(s', m) ensures Clear(s'.history, m) {
      BecomesFree(s, step, m);
      if m !in s.box.rows {
        assert forall i :: 0 <= i < |h| ==> !IsSend(h[i], m);
        assert Clear(h, m);
        assert more == [];
      } else if more != [] {
        assert !IsSend(more[0], m);
        ClearAppend(h, more[0], m);
      }
    }
    if more != [] {
      if step.SendFirst? || step.SendSecond? { assert Free(s, s.pass.todo[0]); }
      NoResendAppend(h, more[0]);
    }
  }

  lemma SentSinceAppend(h: seq<Act>, i: nat, j: nat, m: Id, a: Act)
    requires i < j <= |h| && SentSince(h, i, j, m)
    ensures forall j' :: j <= j' <= |h| + 1 ==> SentSince(h + [a], i, j', m)
  {
    var k :| i < k < j && IsSend(h[k], m);
    assert IsSend((h + [a])[k], m);
  }

  lemma PassOfAppend(h: seq<Act>, i: nat, j: nat, a: Act)
    requires i < j <= |h| && PassOf(h, i, j)
    ensures PassOf(h + [a], i, j)
    ensures j == |h| && !a.Begun? ==> PassOf(h + [a], i, j + 1)
  {
    var h' := h + [a];
    assert h'[i] == h[i];
    forall m | m in h'[i].mandatory ensures SentSince(h', i, j, m) && SentSince(h', i, j + 1, m) {
      SentSinceAppend(h, i, j, m, a);
    }
  }

  lemma MandatoryFirstAppend(h: seq<Act>, a: Act, begun: nat)
    requires MandatoryFirst(h)
    requires a.Sends? && a.kind.PROACTIVE? ==> begun < |h| && PassOf(h, begun, |h|)
    ensures MandatoryFirst(h + [a])
  {
    var h' := h + [a];
    forall j | 0 <= j < |h'| && h'[j].Sends? && h'[j].kind.PROACTIVE? ensures exists i :: 0 <= i < j && PassOf(h', i, j) {
      if j < |h| {
        assert h'[j] == h[j];
        var i :| 0 <= i < j && PassOf(h, i, j);
        PassOfAppend(h, i, j, a);
      } else {
        PassOfAppend(h, begun, j, a);
      }
    }
  }

  lemma PassNext(s: State, step: Step)
    requires OrderInv(s) && Enabled(s, step) && Adds(s, step) != []
    ensures OrderInv(Next(s, step))
  {
    HistoryNext(s, step);
    var h, a, s' := s.history, Adds(s, step)[0], Next(s, step);
    assert s'.history == h + [a];
    MandatoryFirstAppend(h, a, if s.pass.Idle? then 0 else s.pass.begun);
    if step.Begin? || s'.pass.Idle? { return; }
    var begun := s.pass.begun;
    if s'.pass.Second? {
      PassOfAppend(h, begun, |h|, a);
    } else {
      forall m | m in s'.history[begun].mandatory ensures m in s'.pass.todo || SentSince(s'.history, begun, |h| + 1, m) {
        if SentSince(h, begun, |h|, m) {
          SentSinceAppend(h, begun, |h|, m, a);
        } else if m !in s'.pass.todo {
          assert step.SendFirst? && m == s.pass.todo[0];
          assert IsSend(s'.history[|h|], m);
        }
      }
    }
  }

  lemma OrderNext(s: State, step: Step)
    requires OrderInv(s) && Enabled(s, step)
    ensures OrderInv(Next(s, step))
  {
    HistoryNext(s, step);
    if Adds(s, step) != [] {
      PassNext(s, step);
    } else {
      assert Next(s, step).history == s.history;
    }
  }

  lemma SessionAppend(h: seq<Act>, a: Act, i: int, j: int)
    requires 0 <= i < j <= |h|
    ensures SameSession(h + [a], i, j) <==> SameSession(h, i, j)
    ensures SameSession(h + [a], i, |h| + 1) <==> SameSession(h, i, |h|) && !a.Restarted?
  {
    var h' := h + [a];
    assert forall k :: 0 <= k < |h| ==> h'[k] == h[k];
    assert h'[|h|] == a;
  }

  lemma SpacedAppend(h: seq<Act>, a: Act, window: int)
    requires Spaced(h, window)
    requires a.Sends? && a.kind.PROACTIVE? ==>
               forall i :: 0 <= i < |h| && h[i].Sent? && h[i].kind.PROACTIVE? && SameSession(h, i, |h|) ==> a.at >= h[i].at + window
    ensures Spaced(h + [a], window)
  {
    var h' := h + [a];
    forall i, j | 0 <= i < j < |h'| && h'[i].Sent? && h'[i].kind.PROACTIVE? && h'[j].Sends? && h'[j].kind.PROACTIVE?
                  && SameSession(h', i, j)
      ensures h'[j].at >= h'[i].at + window
    {
      SessionAppend(h, a, i, j);
    }
  }

  lemma BurstNext(s: State, step: Step)
    requires BurstInv(s) && Enabled(s, step)
    ensures BurstInv(Next(s, step))
  {
    HistoryNext(s, step);
    var h, more, s' := s.history, Adds(s, step), Next(s, step);
    if more == [] {
      assert s'.history == h;
    } else {
      assert more == [more[0]];
      SpacedAppend(h, more[0], s.window);
      forall i | 0 <= i < |h| ensures SameSession(s'.history, i, |s'.history|) <==> SameSession(h, i, |h|) && !more[0].Restarted? {
        SessionAppend(h, more[0], i, |h|);
      }
    }
  }

  lemma DeliveredAppend(h: seq<Act>, a: Act)
    requires NoSendAfterDelivery(h) && (a.Sends? ==> forall i :: 0 <= i < |h| ==> h[i] != Reduced(a.id, true))
    ensures NoSendAfterDelivery(h + [a])
  {
  }

  // An act that sends names a free message, and one that reduces a delivery a delivered one.
  lemma ActOnRows(s: State, step: Step)
    requires OneOutstanding(s) && SnapshotInv(s) && Enabled(s, step) && Adds(s, step) != []
    ensures var a, s' := Adds(s, step)[0], Next(s, step);
            && (a.Sends? ==> Free(s, a.id))
            && (a.Reduced? && a.delivered ==> a.id in s'.box.rows && s'.box.rows[a.id].status.DELIVERED?)
  {
    hide Outbox.Next, Result, Outbox.Enabled;
    if step.SendFirst? || step.SendSecond? { assert Free(s, s.pass.todo[0]); }
    if step.Reduce? || step.Drain? {
      ReportShape(s.box, s.queue[0].id, s.queue[0].delivered, s.queue[0].error, step.at);
    }
  }

  lemma DeliveredNext(s: State, step: Step)
    requires OneOutstanding(s) && SnapshotInv(s) && DeliveredInv(s) && Enabled(s, step)
    ensures DeliveredInv(Next(s, step))
  {
    RowsNext(s, step);
    HistoryNext(s, step);
    OneActMore(s, step);
    var h, more, s' := s.history, Adds(s, step), Next(s, step);
    if more == [] {
      assert s'.history == h;
    } else {
      ActOnRows(s, step);
      DeliveredAppend(h, more[0]);
    }
    hide Next, Enabled, Adds, OneOutstanding, SnapshotInv, NoSendAfterDelivery;
  }

  lemma OneActMore(s: State, step: Step)
    requires Enabled(s, step)
    ensures Adds(s, step) == [] || Adds(s, step) == [Adds(s, step)[0]]
  {
    hide Outbox.Enabled;
  }

  lemma PumpNext(s: State, step: Step)
    requires PumpInv(s) && Enabled(s, step)
    ensures PumpInv(Next(s, step))
  {
    OutstandingNext(s, step);
    SnapshotNext(s, step);
    hide OneOutstanding, SnapshotInv, SendsInv, DeliveredInv, OrderInv, BurstInv, Next, Enabled;
    SendsNext(s, step);
    DeliveredNext(s, step);
    OrderNext(s, step);
    BurstNext(s, step);
  }

  // For every interleaving of passes, reductions, restarts and other table changes: no resend in a
  // session before a reduced failure and never after a delivery, mandatory first, proactive sends
  // spaced within a session, one report per message at a time.
  lemma {:induction false} PumpRun(s: State, run: seq<Step>)
    requires PumpInv(s) && ValidRun(s, run)
    ensures PumpInv(Exec(s, run)) && Exec(s, run).window == s.window
    decreases |run|
  {
    if run != [] {
      PumpNext(s, run[0]);
      PumpRun(Next(s, run[0]), run[1..]);
    }
  }

  lemma Delivery(window: int, run: seq<Step>)
    requires ValidRun(Init(window), run)
    ensures var s := Exec(Init(window), run);
            && NoResend(s.history) && NoSendAfterDelivery(s.history) && MandatoryFirst(s.history)
            && Spaced(s.history, window) && OneOutstanding(s)
  {
    PumpRun(Init(window), run);
  }

  // ---------------------------------------------------------------- who is in flight

  // A pass takes up the next message of its list; only a successful reduction of the report of a
  // message, or a restart, lets go of it.
  predicate TakesUp(s: State, step: Step, m: Id)
    requires Enabled(s, step)
  {
    (step.SendFirst? || step.SendSecond? || step.DropNext?) && s.pass.todo[0] == m
  }

  predicate LetsGo(s: State, step: Step, m: Id)
    requires Enabled(s, step)
  {
    (step.Reduce? && s.queue[0].id == m) || step.Restart?
  }

  ghost predicate LetGo(s: State, run: seq<Step>, m: Id)
    requires ValidRun(s, run)
    decreases |run|
  {
    run != [] && (LetsGo(s, run[0], m) || LetGo(Next(s, run[0]), run[1..], m))
  }

  // Some step of the run takes the message up, and no later one lets go of it.
  ghost predicate Held(s: State, run: seq<Step>, m: Id)
    requires ValidRun(s, run)
    decreases |run|
  {
    run != [] && var s' := Next(s, run[0]);
                 || Held(s', run[1..], m)
                 || (TakesUp(s, run[0], m) && !LetGo(s', run[1..], m))
  }

  lemma InFlightNext(s: State, step: Step, m: Id)
    requires OneOutstanding(s) && Enabled(s, step)
    ensures m in Next(s, step).inflight <==> TakesUp(s, step, m) || (m in s.inflight && !LetsGo(s, step, m))
  {
    hide Outbox.Next, Result, Outbox.Enabled;
  }

  // A message is in flight exactly when it has been taken up and not let go of since: neither a
  // cancelled send, nor a reduction that fails, nor the drain of a shutdown lets go of it.
  lemma {:induction false} InFlightRun(s: State, run: seq<Step>, m: Id)
    requires PumpInv(s) && ValidRun(s, run)
    ensures m in Exec(s, run).inflight <==> Held(s, run, m) || (m in s.inflight && !LetGo(s, run, m))
    decreases |run|
  {
    if run != [] {
      PumpNext(s, run[0]);
      InFlightNext(s, run[0], m);
      InFlightRun(Next(s, run[0]), run[1..], m);
      hide Next, Enabled, PumpInv, TakesUp, LetsGo;
    }
  }

  lemma InFlightExactly(window: int, run: seq<Step>, m: Id)
    requires ValidRun(Init(window), run)
    ensures m in Exec(Init(window), run).inflight <==> Held(Init(window), run, m)
  {
    InFlightRun(Init(window), run, m);
  }

  // ---------------------------------------------------------------- nothing deliverable is passed over

  // What a pass has still to look at.
  predicate Ahead(s: State, m: Id) {
    match s.pass
    case Idle => false
    case First(todo, later, _, _) => m in todo || m in later
    case Second(todo, _, _, _) => m in todo
  }

  // Some step of the run sends the message, drops it, or leaves it because the window is not open.
  ghost predicate Handled(s: State, run: seq<Step>, m: Id)
    requires ValidRun(s, run)
    decreases |run|
  {
    run != [] && (TakesUp(s, run[0], m) || (run[0].SkipNext? && !s.pass.may && s.pass.todo[0] == m) || Handled(Next(s, run[0]), run[1..], m))
  }

  predicate Disturbs(step: Step) { step.Begin? || step.Cancel? || step.Restart? }

  lemma AheadNext(s: State, step: Step, m: Id)
    requires Enabled(s, step) && !Disturbs(step) && Ahead(s, m)
    ensures TakesUp(s, step, m) || (step.SkipNext? && !s.pass.may && s.pass.todo[0] == m) || Ahead(Next(s, step), m)
  {
    if !Next(s, step).pass.Idle? { ListsShrink(s, step); }
    hide Outbox.Next, Outbox.Enabled, Result;
  }

  lemma {:induction false} AheadRun(s: State, run: seq<Step>, m: Id)
    requires ValidRun(s, run) && Ahead(s, m) && !Ahead(Exec(s, run), m)
    requires forall i :: 0 <= i < |run| ==> !Disturbs(run[i])
    ensures Handled(s, run, m)
    decreases |run|
  {
    AheadNext(s, run[0], m);
    hide Next, Enabled, Ahead, TakesUp;
    if !TakesUp(s, run[0], m) && Ahead(Next(s, run[0]), m) { AheadRun(Next(s, run[0]), run[1..], m); }
  }

  // A pass that runs to its end has sent, dropped or left each pending message that was not in flight
  // when it began.
  lemma PassOverAll(s: State, begin: Step, run: seq<Step>, m: Id)
    requires begin.Begin? && Enabled(s, begin) && ValidRun(Next(s, begin), run)
    requires (forall i :: 0 <= i < |run| ==> !Disturbs(run[i])) && Exec(Next(s, begin), run).pass.Idle?
    requires m in s.box.rows && m !in s.inflight && s.box.rows[m].status == PENDING_DELIVERY
    ensures Handled(Next(s, begin), run, m)
  {
    assert Deliverable(s, m, MANDATORY) || Deliverable(s, m, PROACTIVE);
    AheadRun(Next(s, begin), run, m);
  }

  // ---------------------------------------------------------------- a whole pass

  // What an uninterrupted pass reports: every mandatory item is attempted; then each proactive
  // item is dropped for its reason, attempted if it is the first that may go, or left alone.
  function FirstNotices(todo: seq<Id>, sink: Id -> Notice): seq<Notice> {
    if todo == [] then [] else [sink(todo[0])] + FirstNotices(todo[1..], sink)
  }

  function SecondNotices(todo: seq<Id>, may: bool, drop: map<Id, string>, sink: Id -> Notice): seq<Notice> {
    if todo == [] then []
    else if todo[0] in drop then [Notice(todo[0], false, drop[todo[0]])] + SecondNotices(todo[1..], may, drop, sink)
    else if may then [sink(todo[0])] + SecondNotices(todo[1..], false, drop, sink)
    else SecondNotices(todo[1..], may, drop, sink)
  }

  predicate Attempts(todo: seq<Id>, may: bool, drop: map<Id, string>) {
    may && exists m | m in todo :: m !in drop
  }

  // Reports speak of listed items only, and every drop is reported.
  lemma {:induction false} NoticesOfList(todo: seq<Id>, may: bool, drop: map<Id, string>, sink: Id -> Notice)
    requires forall m :: sink(m).id == m
    ensures var r := SecondNotices(todo, may, drop, sink);
            && (forall n :: n in r ==> n.id in todo)
            && (forall m :: m in todo && m in drop ==> Notice(m, false, drop[m]) in r)
  {
    if todo != [] {
      NoticesOfList(todo[1..], may, drop, sink);
      NoticesOfList(todo[1..], false, drop, sink);
    }
  }

  // Once no attempt is allowed, only drops are reported.
  lemma {:induction false} OnlyDrops(todo: seq<Id>, drop: map<Id, string>, sink: Id -> Notice)
    ensures forall n :: n in SecondNotices(todo, false, drop, sink) ==> n.id in drop
  {
    if todo != [] { OnlyDrops(todo[1..], drop, sink); }
  }

  // At most one proactive item of a pass is attempted, the first that nothing drops: everything
  // reported before it is a drop, and so is everything after it.
  lemma {:induction false} OneAttempt(todo: seq<Id>, may: bool, drop: map<Id, string>, sink: Id -> Notice)
    returns (before: seq<Notice>, after: seq<Notice>, m: Id)
    requires Attempts(todo, may, drop) && forall m :: sink(m).id == m
    ensures m in todo && m !in drop && SecondNotices(todo, may, drop, sink) == before + [sink(m)] + after
    ensures (forall n :: n in before ==> n.id in drop) && (forall n :: n in after ==> n.id in drop)
  {
    if todo[0] in drop {
      before, after, m := OneAttempt(todo[1..], may, drop, sink);
      before := [Notice(todo[0], false, drop[todo[0]])] + before;
    } else {
      before, after, m := [], SecondNotices(todo[1..], false, drop, sink), todo[0];
      OnlyDrops(todo[1..], drop, sink);
    }
  }

  lemma {:induction false} FirstInOrder(todo: seq<Id>, sink: Id -> Notice)
    ensures var r := FirstNotices(todo, sink);
            |r| == |todo| && forall i :: 0 <= i < |todo| ==> r[i] == sink(todo[i])
  {
    if todo != [] { FirstInOrder(todo[1..], sink); }
  }

  lemma Cons(s: State, step: Step, rest: seq<Step>)
    requires Enabled(s, step) && ValidRun(Next(s, step), rest)
    ensures ValidRun(s, [step] + rest) && Exec(s, [step] + rest) == Exec(Next(s, step), rest)
  {
    assert ([step] + rest)[1..] == rest;
  }

  // What the rest of a proactive half leaves.
  ghost predicate EndsSecond(s: State, run: seq<Step>, queue: seq<Notice>, last: Option<int>) {
    ValidRun(s, run) && Exec(s, run).pass.Idle? && Exec(s, run).queue == queue && Exec(s, run).last == last
  }

  lemma ConsEnds(s: State, step: Step, rest: seq<Step>, queue: seq<Notice>, last: Option<int>)
    requires Enabled(s, step) && EndsSecond(Next(s, step), rest, queue, last)
    ensures EndsSecond(s, [step] + rest, queue, last)
  {
    hide Next, Enabled;
    Cons(s, step, rest);
  }

  function LastAfter(s: State, todo: seq<Id>, may: bool, drop: map<Id, string>): Option<int> {
    if Attempts(todo, may, drop) then Some(s.clock) else s.last
  }

  // The proactive half of an uninterrupted pass is a run of the machine.
  lemma {:induction false} SecondIsRun(s: State, drop: map<Id, string>, sink: Id -> Notice) returns (run: seq<Step>)
    requires s.pass.Second? && s.pass.sending.None? && forall m :: sink(m).id == m
    ensures EndsSecond(s, run, s.queue + SecondNotices(s.pass.todo, s.pass.may, drop, sink),
                       LastAfter(s, s.pass.todo, s.pass.may, drop))
    decreases |s.pass.todo|
  {
    if s.pass.todo == [] {
      Cons(s, End, []);
      return [End];
    }
    var m := s.pass.todo[0];
    if m in drop {
      run := DropIsRun(s, drop, sink);
    } else if s.pass.may {
      run := SendIsRun(s, drop, sink);
    } else {
      var rest := SecondIsRun(Next(s, SkipNext), drop, sink);
      ConsEnds(s, SkipNext, rest, s.queue + SecondNotices(s.pass.todo, false, drop, sink), s.last);
      run := [SkipNext] + rest;
    }
  }

  lemma {:induction false} DropIsRun(s: State, drop: map<Id, string>, sink: Id -> Notice) returns (run: seq<Step>)
    requires s.pass.Second? && s.pass.sending.None? && s.pass.todo != [] && s.pass.todo[0] in drop
    requires forall m :: sink(m).id == m
    ensures EndsSecond(s, run, s.queue + SecondNotices(s.pass.todo, s.pass.may, drop, sink),
                       LastAfter(s, s.pass.todo, s.pass.may, drop))
    decreases |s.pass.todo|, 0
  {
    var m := s.pass.todo[0];
    var mid := Next(s, DropNext(drop[m]));
    var rest := SecondIsRun(mid, drop, sink);
    var after := SecondNotices(s.pass.todo[1..], s.pass.may, drop, sink);
    assert s.queue + ([Notice(m, false, drop[m])] + after) == mid.queue + after;
    ConsEnds(s, DropNext(drop[m]), rest, mid.queue + after, LastAfter(s, s.pass.todo, s.pass.may, drop));
    run := [DropNext(drop[m])] + rest;
  }

  lemma {:induction false} SendIsRun(s: State, drop: map<Id, string>, sink: Id -> Notice) returns (run: seq<Step>)
    requires s.pass.Second? && s.pass.sending.None? && s.pass.todo != [] && s.pass.todo[0] !in drop && s.pass.may
    requires forall m :: sink(m).id == m
    ensures EndsSecond(s, run, s.queue + SecondNotices(s.pass.todo, s.pass.may, drop, sink),
                       LastAfter(s, s.pass.todo, s.pass.may, drop))
    decreases |s.pass.todo|, 0
  {
    var m := s.pass.todo[0];
    var sent := SecondSent(sink(m).delivered, sink(m).error);
    var mid := Next(s, SendSecond);
    var done := Next(mid, sent);
    var rest := SecondIsRun(done, drop, sink);
    var after := SecondNotices(s.pass.todo[1..], false, drop, sink);
    assert done.queue == s.queue + [sink(m)];
    assert s.queue + ([sink(m)] + after) == done.queue + after;
    ConsEnds(mid, sent, rest, done.queue + after, Some(s.clock));
    ConsEnds(s, SendSecond, [sent] + rest, done.queue + after, Some(s.clock));
    run := [SendSecond] + ([sent] + rest);
  }

  // ... and so is the whole pass: what `PumpPass` does between two reductions, the machine does.
  lemma {:induction false} FirstIsRun(s: State, drop: map<Id, string>, sink: Id -> Notice) returns (run: seq<Step>)
    requires s.pass.First? && s.pass.sending.None? && forall m :: sink(m).id == m
    ensures EndsSecond(s, run,
                       s.queue + FirstNotices(s.pass.todo, sink) + SecondNotices(s.pass.later, BurstElapsed(s), drop, sink),
                       LastAfter(s, s.pass.later, BurstElapsed(s), drop))
    decreases |s.pass.todo|
  {
    var after := SecondNotices(s.pass.later, BurstElapsed(s), drop, sink);
    var last := LastAfter(s, s.pass.later, BurstElapsed(s), drop);
    if s.pass.todo == [] {
      var rest := SecondIsRun(Next(s, TurnToProactive), drop, sink);
      ConsEnds(s, TurnToProactive, rest, s.queue + after, last);
      assert s.queue + [] + after == s.queue + after;
      return [TurnToProactive] + rest;
    }
    var m := s.pass.todo[0];
    var sent := FirstSent(sink(m).delivered, sink(m).error);
    var mid := Next(s, SendFirst);
    var done := Next(mid, sent);
    assert done.queue == s.queue + [sink(m)];
    var rest := FirstIsRun(done, drop, sink);
    var more := FirstNotices(s.pass.todo[1..], sink);
    assert done.queue + more + after == s.queue + ([sink(m)] + more) + after;
    ConsEnds(mid, sent, rest, done.queue + more + after, last);
    ConsEnds(s, SendFirst, [sent] + rest, done.queue + more + after, last);
    run := [SendFirst] + ([sent] + rest);
  }

  class DeliveryPump {
    const window: int
    var inflight: set<Id>
    var queue: seq<Notice>
    var last: Option<int>

    constructor (window: int)
      ensures inflight == {} && queue == [] && last == None && this.window == window
    {
      this.window := window;
      inflight, queue, last := {}, [], None;
    }

    method OnDeliveryResult(id: Id)
      modifies `inflight
      ensures inflight == old(inflight) - {id}
    {
      inflight := inflight - {id};
    }

    method Enqueue(notice: Notice)
      modifies `inflight, `queue
      ensures inflight == old(inflight) + {notice.id} && queue == old(queue) + [notice]
    {
      inflight := inflight + {notice.id};
      queue := queue + [notice];
    }

    method BurstWindowElapsed(clock: int) returns (elapsed: bool)
      ensures elapsed <==> last.None? || clock >= last.value + window
    {
      if last.None? { return true; }
      elapsed := clock - last.value >= window;
    }

    // One pass that nothing interrupts: `before` and `after` are the monotonic clock when the
    // proactive half starts and when its one attempt has ended. Exactly the reported messages are
    // added to the ones in flight.
    method PumpPass(mandatory: seq<Id>, proactive: seq<Id>, drop: map<Id, string>, sink: Id -> Notice,
                    before: int, after: int)
      requires forall m :: sink(m).id == m
      modifies `inflight, `queue, `last
      ensures var may := old(last).None? || before >= old(last).value + window;
              var first, second := FirstNotices(mandatory, sink), SecondNotices(proactive, may, drop, sink);
              && queue == old(queue) + first + second
              && inflight == old(inflight) + Named(first) + Named(second)
              && last == (if Attempts(proactive, may, drop) then Some(after) else old(last))
    {
      PumpMandatory(mandatory, sink);
      PumpOneProactive(proactive, drop, sink, before, after);
    }

    method PumpMandatory(mandatory: seq<Id>, sink: Id -> Notice)
      requires forall m :: sink(m).id == m
      modifies `inflight, `queue
      ensures queue == old(queue) + FirstNotices(mandatory, sink)
      ensures inflight == old(inflight) + Named(FirstNotices(mandatory, sink))
    {
      hide Named;
      var i := 0;
      ghost var done: seq<Notice> := [];
      NamedNone();
      while i < |mandatory|
        invariant i <= |mandatory| && done + FirstNotices(mandatory[i..], sink) == FirstNotices(mandatory, sink)
        invariant queue == old(queue) + done && inflight == old(inflight) + Named(done)
      {
        var notice := sink(mandatory[i]);
        assert mandatory[i..][0] == mandatory[i] && mandatory[i..][1..] == mandatory[i + 1..];
        assert FirstNotices(mandatory[i..], sink) == [notice] + FirstNotices(mandatory[i + 1..], sink);
        NamedMore(done, notice);
        Enqueue(notice);
        done := done + [notice];
        i := i + 1;
      }
      assert mandatory[i..] == [] && done == FirstNotices(mandatory, sink);
    }

    method PumpOneProactive(proactive: seq<Id>, drop: map<Id, string>, sink: Id -> Notice, before: int, after: int)
      requires forall m :: sink(m).id == m
      modifies `inflight, `queue, `last
      ensures var may := old(last).None? || before >= old(last).value + window;
              var second := SecondNotices(proactive, may, drop, sink);
              && queue == old(queue) + second && inflight == old(inflight) + Named(second)
              && last == (if Attempts(proactive, may, drop) then Some(after) else old(last))
    {
      hide Named, SecondNotices, Attempts;
      var burst := BurstWindowElapsed(before);
      var delivered := false;
      var i := 0;
      ghost var done: seq<Notice> := [];
      NamedNone();
      NoMoreItems(proactive, burst, drop, sink);
      assert proactive[0..] == proactive;
      while i < |proactive|
        invariant i <= |proactive|
        invariant done + SecondNotices(proactive[i..], burst && !delivered, drop, sink) == SecondNotices(proactive, burst, drop, sink)
        invariant queue == old(queue) + done && inflight == old(inflight) + Named(done)
        invariant last == if delivered then Some(after) else old(last)
        invariant delivered == Attempts(proactive[..i], burst, drop)
      {
        var m := proactive[i];
        OneMoreItem(proactive, i, burst && !delivered, drop, sink);
        AttemptsMore(proactive, i, burst, drop);
        if m in drop {
          var notice := Notice(m, false, drop[m]);
          NamedMore(done, notice);
          Shift(done, notice, SecondNotices(proactive[i + 1..], burst && !delivered, drop, sink));
          Enqueue(notice);
          done := done + [notice];
        } else if burst && !delivered {
          NamedMore(done, sink(m));
          Shift(done, sink(m), SecondNotices(proactive[i + 1..], false, drop, sink));
          Enqueue(sink(m));
          done := done + [sink(m)];
          last := Some(after);
          delivered := true;
        }
        i := i + 1;
      }
      NoMoreItems(proactive, burst && !delivered, drop, sink);
      assert proactive[i..] == proactive[|proactive|..] && proactive[..i] == proactive;
      assert done == SecondNotices(proactive, burst, drop, sink);
    }
  }

  lemma Shift(done: seq<Notice>, notice: Notice, rest: seq<Notice>)
    ensures done + ([notice] + rest) == (done + [notice]) + rest
  {
  }

  lemma OneMoreItem(items: seq<Id>, i: nat, may: bool, drop: map<Id, string>, sink: Id -> Notice)
    requires i < |items|
    ensures var m, more := items[i], items[i + 1..];
            SecondNotices(items[i..], may, drop, sink)
            == if m in drop then [Notice(m, false, drop[m])] + SecondNotices(more, may, drop, sink)
               else if may then [sink(m)] + SecondNotices(more, false, drop, sink)
               else SecondNotices(more, may, drop, sink)
  {
    assert items[i..][0] == items[i] && items[i..][1..] == items[i + 1..];
  }

  lemma NoMoreItems(items: seq<Id>, may: bool, drop: map<Id, string>, sink: Id -> Notice)
    ensures SecondNotices(items[|items|..], may, drop, sink) == []
    ensures !Attempts(items[..0], may, drop)
  {
  }

  lemma AttemptsMore(items: seq<Id>, i: nat, may: bool, drop: map<Id, string>)
    requires i < |items|
    ensures Attempts(items[..i + 1], may, drop) == (Attempts(items[..i], may, drop) || (may && items[i] !in drop))
  {
    assert items[..i + 1] == items[..i] + [items[i]];
  }

  // The messages some reports speak of.
  ghost function Named(notices: seq<Notice>): set<Id> { set i | 0 <= i < |notices| :: notices[i].id }

  lemma NamedNone()
    ensures Named([]) == {}
  {
  }

  lemma NamedMore(notices: seq<Notice>, notice: Notice)
    ensures Named(notices + [notice]) == Named(notices) + {notice.id}
  {
    var more := notices + [notice];
    forall m | m in Named(notices) + {notice.id} ensures m in Named(more) {
      if m == notice.id {
        assert more[|notices|].id == m;
      } else {
        var i :| 0 <= i < |notices| && notices[i].id == m;
        assert more[i].id == m;
      }
    }
  }

  // ---------------------------------------------------------------- the window, and the order

  // The proactive half may attempt one item exactly when nothing proactive was attempted yet, or the
  // last attempt ended at least a window ago.
  lemma WindowOpens(s: State)
    requires Enabled(s, TurnToProactive)
    ensures Next(s, TurnToProactive).pass.may <==> s.last.None? || s.clock >= s.last.value + s.window
  {
  }

  ghost predicate Earlier(todo: seq<Id>, a: Id, b: Id) {
    exists p, q :: 0 <= p < q < |todo| && todo[p] == a && todo[q] == b
  }

  lemma EarlierTail(todo: seq<Id>, a: Id, b: Id)
    requires todo != [] && Earlier(todo[1..], a, b)
    ensures Earlier(todo, a, b)
  {
    var p, q :| 0 <= p < q < |todo[1..]| && todo[1..][p] == a && todo[1..][q] == b;
    assert todo[p + 1] == a && todo[q + 1] == b;
  }

  lemma EarlierHead(todo: seq<Id>, b: Id)
    requires todo != [] && b in todo[1..]
    ensures Earlier(todo, todo[0], b)
  {
    var q :| 0 <= q < |todo[1..]| && todo[1..][q] == b;
    assert todo[q + 1] == b;
  }

  // The proactive half reports in the order of its snapshot.
  lemma {:induction false} SecondInOrder(todo: seq<Id>, may: bool, drop: map<Id, string>, sink: Id -> Notice)
    requires forall m :: sink(m).id == m
    ensures var r := SecondNotices(todo, may, drop, sink);
            forall i, j :: 0 <= i < j < |r| ==> Earlier(todo, r[i].id, r[j].id)
  {
    if todo != [] {
      var r := SecondNotices(todo, may, drop, sink);
      var left := may && todo[0] in drop;
      var rest := SecondNotices(todo[1..], left, drop, sink);
      SecondInOrder(todo[1..], left, drop, sink);
      NoticesOfList(todo[1..], left, drop, sink);
      forall i, j | 0 <= i < j < |r| ensures Earlier(todo, r[i].id, r[j].id) {
        var k := |r| - |rest|;
        assert r[j] == rest[j - k];
        if i >= k {
          assert r[i] == rest[i - k];
          EarlierTail(todo, r[i].id, r[j].id);
        } else {
          EarlierHead(todo, r[j].id);
        }
      }
    }
  }
}
