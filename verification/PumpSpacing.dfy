// How far apart two proactive attempts start: what becomes of each attempt, when a cancelled one
// lets the next come too soon, and what a restart forgets.
module PumpSpacing {
  import opened Base
  import Outbox
  import opened Pump

  predicate IsProactive(a: Act) { a.Sends? && a.kind.PROACTIVE? }

  // The promise from start to start, within a session.
  ghost predicate StartsSpaced(h: seq<Act>, window: int) {
    forall i, j :: 0 <= i < j < |h| && IsProactive(h[i]) && IsProactive(h[j]) && SameSession(h, i, j)
      ==> h[j].at >= h[i].at + window
  }

  // ---------------------------------------------------------------- the fate of an attempt

  // Between two places of the history nothing is sent and no session ends.
  predicate NoSends(h: seq<Act>, i: int, k: int) {
    forall l :: i < l < k && 0 <= l < |h| ==> !h[l].Sends? && !h[l].Restarted?
  }

  ghost predicate EndedAt(h: seq<Act>, i: int, k: int) {
    0 <= i < k < |h| && h[i].Sends? && h[k].Sent? && h[k].kind.PROACTIVE? && h[k].at >= h[i].at && NoSends(h, i, k)
  }

  ghost predicate Ended(h: seq<Act>, i: int) { exists k :: EndedAt(h, i, k) }

  ghost predicate CutAt(h: seq<Act>, i: int, k: int) {
    0 <= i < k < |h| && h[i].Sends? && h[k] == Act.Cut(h[i].id, Outbox.PROACTIVE) && NoSends(h, i, k)
  }

  // The pass was cancelled while it awaited the attempt at place i.
  ghost predicate WasCut(h: seq<Act>, i: int) { exists k :: CutAt(h, i, k) }

  // The service restarted while the attempt was under way.
  ghost predicate LostAt(h: seq<Act>, i: int, k: int) { 0 <= i < k < |h| && h[k].Restarted? && NoSends(h, i, k) }

  ghost predicate Lost(h: seq<Act>, i: int) { exists k :: LostAt(h, i, k) }

  predicate UnderWay(s: State, i: int) {
    && 0 <= i < |s.history| && IsProactive(s.history[i]) && s.history[i].at <= s.clock
    && s.pass.Second? && s.pass.sending == Some(s.history[i].id) && NoSends(s.history, i, |s.history|)
  }

  // Every proactive attempt has ended, was cut, was lost to a restart, or is under way.
  ghost predicate FateInv(s: State) {
    && (forall i :: 0 <= i < |s.history| && IsProactive(s.history[i]) ==>
          Ended(s.history, i) || WasCut(s.history, i) || Lost(s.history, i) || UnderWay(s, i))
    && (s.pass.Second? && s.pass.sending.Some? ==> exists i :: UnderWay(s, i))
  }

  lemma NoSendsAppend(h: seq<Act>, a: Act, i: int, k: int)
    requires 0 <= i && k <= |h|
    ensures NoSends(h + [a], i, k) <==> NoSends(h, i, k)
    ensures NoSends(h + [a], i, |h| + 1) <==> NoSends(h, i, |h|) && (i < |h| ==> !a.Sends? && !a.Restarted?)
  {
    var h' := h + [a];
    assert forall l :: 0 <= l < |h| ==> h'[l] == h[l];
    assert h'[|h|] == a;
  }

  lemma FateAppend(h: seq<Act>, a: Act, i: int)
    requires 0 <= i < |h|
    ensures Ended(h, i) ==> Ended(h + [a], i)
    ensures WasCut(h, i) ==> WasCut(h + [a], i)
    ensures Lost(h, i) ==> Lost(h + [a], i)
  {
    if Ended(h, i) {
      var k :| EndedAt(h, i, k);
      NoSendsAppend(h, a, i, k);
      assert EndedAt(h + [a], i, k);
    }
    if WasCut(h, i) {
      var k :| CutAt(h, i, k);
      NoSendsAppend(h, a, i, k);
      assert CutAt(h + [a], i, k);
    }
    if Lost(h, i) {
      var k :| LostAt(h, i, k);
      NoSendsAppend(h, a, i, k);
      assert LostAt(h + [a], i, k);
    }
  }

  // What happens to the attempt under way.
  lemma UnderWayNext(s: State, step: Step, i: int)
    requires Enabled(s, step) && UnderWay(s, i)
    ensures var s' := Next(s, step);
            Ended(s'.history, i) || WasCut(s'.history, i) || Lost(s'.history, i) || UnderWay(s', i)
    ensures Next(s, step).pass.Second? && Next(s, step).pass.sending.Some? ==> UnderWay(Next(s, step), i)
  {
    hide Outbox.Next, Outbox.Result;
    HistoryNext(s, step);
    var h, more, s' := s.history, Adds(s, step), Next(s, step);
    if more == [] {
      assert s'.history == h;
    } else {
      assert more == [more[0]];
      NoSendsAppend(h, more[0], i, |h|);
      match step
      case SecondSent(_, _) => assert EndedAt(s'.history, i, |h|);
      case Cancel => assert CutAt(s'.history, i, |h|);
      case Restart(_) => assert LostAt(s'.history, i, |h|);
      case _ =>
    }
  }

  lemma FateNext(s: State, step: Step)
    requires FateInv(s) && Enabled(s, step)
    ensures FateInv(Next(s, step))
  {
    hide Outbox.Next, Outbox.Result;
    HistoryNext(s, step);
    var h, more, s' := s.history, Adds(s, step), Next(s, step);
    if more == [] { assert s'.history == h; } else { assert more == [more[0]]; }
    forall i | 0 <= i < |s'.history| && IsProactive(s'.history[i])
      ensures Ended(s'.history, i) || WasCut(s'.history, i) || Lost(s'.history, i) || UnderWay(s', i)
    {
      if i < |h| {
        assert s'.history[i] == h[i];
        if UnderWay(s, i) {
          UnderWayNext(s, step, i);
        } else if more != [] {
          FateAppend(h, more[0], i);
        }
      } else {
        assert step.SendSecond? && UnderWay(s', i);
      }
    }
    if s'.pass.Second? && s'.pass.sending.Some? {
      if step.SendSecond? {
        assert UnderWay(s', |h|);
      } else {
        var i :| UnderWay(s, i);
        UnderWayNext(s, step, i);
      }
    }
  }

  // ---------------------------------------------------------------- the exact condition

  // Within its session a later attempt starts inside the window of a cut one.
  ghost predicate TooClose(h: seq<Act>, window: int, i: int, j: int) {
    && 0 <= i < j < |h| && IsProactive(h[i]) && IsProactive(h[j]) && SameSession(h, i, j)
    && WasCut(h, i) && h[j].at < h[i].at + window
  }

  // An attempt that was not cut keeps every later one of its session a window away.
  lemma UncutSpaced(s: State, i: int, j: int)
    requires FateInv(s) && Spaced(s.history, s.window) && 0 <= i < j < |s.history|
    requires IsProactive(s.history[i]) && IsProactive(s.history[j]) && SameSession(s.history, i, j) && !WasCut(s.history, i)
    ensures s.history[j].at >= s.history[i].at + s.window
  {
    var h := s.history;
    assert Ended(h, i) || Lost(h, i) || UnderWay(s, i);
    if Ended(h, i) {
      var k :| EndedAt(h, i, k);
      assert k < j;
      assert SameSession(h, k, j);
    }
  }

  // Attempts are a window apart exactly when no cut one is followed by another within the window.
  lemma SpacedExactly(s: State)
    requires FateInv(s) && Spaced(s.history, s.window)
    ensures StartsSpaced(s.history, s.window) <==> forall i, j :: !TooClose(s.history, s.window, i, j)
  {
    if forall i, j :: !TooClose(s.history, s.window, i, j) {
      forall i, j | 0 <= i < j < |s.history| && IsProactive(s.history[i]) && IsProactive(s.history[j]) && SameSession(s.history, i, j)
        ensures s.history[j].at >= s.history[i].at + s.window
      {
        if WasCut(s.history, i) { assert !TooClose(s.history, s.window, i, j); } else { UncutSpaced(s, i, j); }
      }
    }
  }

  lemma {:induction false} SpacingRun(s: State, run: seq<Step>)
    requires PumpInv(s) && FateInv(s) && ValidRun(s, run)
    ensures PumpInv(Exec(s, run)) && FateInv(Exec(s, run)) && Exec(s, run).window == s.window
    decreases |run|
  {
    hide PumpInv, FateInv, Enabled;
    if run != [] {
      PumpNext(s, run[0]);
      FateNext(s, run[0]);
      SpacingRun(Next(s, run[0]), run[1..]);
    }
  }

  // From the start, for every interleaving: two proactive attempts of a session are closer than the
  // window only if the earlier one was cut and the later one came within it.
  lemma AttemptsSpaced(window: int, run: seq<Step>)
    requires ValidRun(Init(window), run)
    ensures var h := Exec(Init(window), run).history;
            StartsSpaced(h, window) <==> forall i, j :: !TooClose(h, window, i, j)
  {
    SpacingRun(Init(window), run);
    SpacedExactly(Exec(Init(window), run));
  }

  // ---------------------------------------------------------------- the guard that is missing

  // An attempt of this session was cut less than a window ago, counted from its start.
  ghost predicate RecentCut(s: State) {
    exists i :: 0 <= i < |s.history| && IsProactive(s.history[i]) && SameSession(s.history, i, |s.history|)
                && WasCut(s.history, i) && s.clock < s.history[i].at + s.window
  }

  // No step of the run sends a proactive item while a cut is recent.
  ghost predicate Patient(s: State, run: seq<Step>)
    requires ValidRun(s, run)
    decreases |run|
  {
    run == [] || (!(run[0].SendSecond? && RecentCut(s)) && Patient(Next(s, run[0]), run[1..]))
  }

  lemma SessionAppend(h: seq<Act>, a: Act, i: int, j: int)
    requires 0 <= i <= j <= |h|
    ensures SameSession(h + [a], i, j) <==> SameSession(h, i, j)
  {
    var h' := h + [a];
    assert forall k :: 0 <= k < |h| ==> h'[k] == h[k];
  }

  // A step keeps the attempts apart unless it is one more attempt soon after a cut; and what was
  // too close stays so.
  lemma SpacedNext(s: State, step: Step)
    requires PumpInv(s) && FateInv(s) && Enabled(s, step)
    ensures StartsSpaced(Next(s, step).history, s.window)
            <==> StartsSpaced(s.history, s.window) && !(step.SendSecond? && RecentCut(s))
    ensures Next(s, step).window == s.window
  {
    hide *;
    StillSpaced(s, step);
    OneAct(s, step);
    var more, s' := Adds(s, step), Next(s, step);
    if more == [] {
      assert s'.history == s.history;
    } else {
      AppendSpaced(s, s', more[0]);
    }
  }

  lemma StillSpaced(s: State, step: Step)
    requires PumpInv(s) && FateInv(s) && Enabled(s, step)
    ensures var s' := Next(s, step); FateInv(s') && Spaced(s'.history, s'.window) && s'.window == s.window
  {
    PumpNext(s, step);
    FateNext(s, step);
    KeepsWindow(s, step);
    hide FateInv, Next, Enabled, OneOutstanding, SnapshotInv, SendsInv, DeliveredInv, OrderInv, Spaced;
  }

  lemma KeepsWindow(s: State, step: Step)
    requires Enabled(s, step)
    ensures Next(s, step).window == s.window
  {
    hide Outbox.Next, Outbox.Result, Outbox.Enabled;
  }

  // A step adds at most one act, and a proactive attempt only by sending.
  lemma OneAct(s: State, step: Step)
    requires Enabled(s, step)
    ensures var more := Adds(s, step);
            && Next(s, step).history == s.history + more && (more != [] ==> more == [more[0]])
            && (more != [] && IsProactive(more[0]) <==> step.SendSecond?)
            && (step.SendSecond? ==> more[0].at == s.clock)
  {
    HistoryNext(s, step);
    hide Next, Outbox.Enabled;
  }

  lemma AppendSpaced(s: State, s': State, a: Act)
    requires FateInv(s') && Spaced(s'.history, s'.window) && s'.history == s.history + [a] && s'.window == s.window
    requires IsProactive(a) ==> a.at == s.clock
    ensures StartsSpaced(s'.history, s.window) <==> StartsSpaced(s.history, s.window) && !(IsProactive(a) && RecentCut(s))
  {
    hide FateInv, Spaced;
    var h, h' := s.history, s'.history;
    assert forall k :: 0 <= k < |h| ==> h'[k] == h[k];
    forall i, j | 0 <= i <= j <= |h| ensures SameSession(h', i, j) <==> SameSession(h, i, j) { SessionAppend(h, a, i, j); }
    if IsProactive(a) {
      forall i | 0 <= i < |h| && IsProactive(h[i]) && SameSession(h, i, |h|)
        ensures s.clock < h[i].at + s.window ==> RecentCut(s)
      {
        if !WasCut(h', i) { UncutSpaced(s', i, |h|); } else { CutBefore(h, a, i); }
      }
      if i :| 0 <= i < |h| && IsProactive(h[i]) && SameSession(h, i, |h|) && s.clock < h[i].at + s.window {
        assert h'[|h|] == a && !(h'[|h|].at >= h'[i].at + s.window);
      }
    }
  }

  lemma CutBefore(h: seq<Act>, a: Act, i: int)
    requires 0 <= i < |h| && !a.Cut? && WasCut(h + [a], i)
    ensures WasCut(h, i)
  {
    var k :| CutAt(h + [a], i, k);
    NoSendsAppend(h, a, i, k);
    assert CutAt(h, i, k);
  }

  lemma {:induction false} PatientRun(s: State, run: seq<Step>)
    requires PumpInv(s) && FateInv(s) && ValidRun(s, run)
    ensures StartsSpaced(Exec(s, run).history, s.window) <==> StartsSpaced(s.history, s.window) && Patient(s, run)
    decreases |run|
  {
    hide PumpInv, FateInv, Enabled, Next, StartsSpaced, RecentCut;
    if run != [] {
      PumpNext(s, run[0]);
      FateNext(s, run[0]);
      SpacedNext(s, run[0]);
      PatientRun(Next(s, run[0]), run[1..]);
    }
  }

  // The exact condition for the promise: over every run from the start, the attempts of a session
  // are a window apart if and only if none is made while a cut of its session is recent.
  lemma SpacedIfPatient(window: int, run: seq<Step>)
    requires ValidRun(Init(window), run)
    ensures StartsSpaced(Exec(Init(window), run).history, window) <==> Patient(Init(window), run)
  {
    PatientRun(Init(window), run);
  }

  // ---------------------------------------------------------------- without cancellation

  // No step of the run cancels a pass while it awaits a proactive send.
  ghost predicate NothingCut(s: State, run: seq<Step>)
    requires ValidRun(s, run)
    decreases |run|
  {
    run == [] || (!(run[0].Cancel? && s.pass.Second?) && NothingCut(Next(s, run[0]), run[1..]))
  }

  predicate NoCuts(h: seq<Act>) { forall i :: 0 <= i < |h| ==> !(h[i].Cut? && h[i].kind.PROACTIVE?) }

  lemma {:induction false} NoCutsRun(s: State, run: seq<Step>)
    requires NoCuts(s.history) && ValidRun(s, run) && NothingCut(s, run)
    ensures NoCuts(Exec(s, run).history)
    decreases |run|
  {
    if run != [] {
      HistoryNext(s, run[0]);
      hide Next, Enabled;
      NoCutsRun(Next(s, run[0]), run[1..]);
    }
  }

  // So successive attempts of a session start at least a window apart whenever no proactive send
  // is cancelled.
  lemma UncancelledSpaced(window: int, run: seq<Step>)
    requires ValidRun(Init(window), run) && NothingCut(Init(window), run)
    ensures StartsSpaced(Exec(Init(window), run).history, window)
  {
    var h := Exec(Init(window), run).history;
    NoCutsRun(Init(window), run);
    AttemptsSpaced(window, run);
    forall i, j ensures !TooClose(h, window, i, j) {
      if WasCut(h, i) { var k :| CutAt(h, i, k); }
    }
  }

  // ---------------------------------------------------------------- instances

  lemma {:induction false} Extend(s: State, run: seq<Step>, step: Step)
    requires ValidRun(s, run) && Enabled(Exec(s, run), step)
    ensures ValidRun(s, run + [step]) && Exec(s, run + [step]) == Next(Exec(s, run), step)
    decreases |run|
  {
    hide Next, Enabled;
    if run == [] {
      assert run + [step] == [step];
    } else {
      Extend(Next(s, run[0]), run[1..], step);
      assert (run + [step])[1..] == run[1..] + [step];
    }
  }

  // A pass from an idle pump whose first proactive item is sent at once.
  lemma PassSends(start: State, run: seq<Step>, items: seq<Id>) returns (more: seq<Step>)
    requires ValidRun(start, run) && items != [] && Distinct(items)
    requires var s := Exec(start, run);
             && s.pass.Idle? && s.last.None? && (forall m :: m in items <==> Deliverable(s, m, Outbox.PROACTIVE))
             && forall m :: !Deliverable(s, m, Outbox.MANDATORY)
    ensures ValidRun(start, more)
    ensures var s := Exec(start, run);
            Exec(start, more) == s.(inflight := s.inflight + {items[0]},
                                    pass := Second(items[1..], true, Some(items[0]), |s.history|),
                                    history := s.history + [Begun([]), Sends(items[0], Outbox.PROACTIVE, s.clock)])
  {
    var s := Exec(start, run);
    var begin := Begin([], items);
    var begun := Next(s, begin);
    var turned := Next(begun, TurnToProactive);
    var sending := Next(turned, SendSecond);
    assert sending.history == s.history + [Begun([]), Sends(items[0], Outbox.PROACTIVE, s.clock)];
    hide Next, Enabled;
    Extend(start, run, begin);
    Extend(start, run + [begin], TurnToProactive);
    Extend(start, run + [begin] + [TurnToProactive], SendSecond);
    more := run + [begin] + [TurnToProactive] + [SendSecond];
  }

  // The program puts every proactive row on the one channel it has.
  const CHANNEL: Id := 1

  function Asked(): Outbox.Message {
    Outbox.Message(Outbox.PROACTIVE, CHANNEL, Outbox.PENDING_DELIVERY, Some(60), Some(Outbox.Candidate(Outbox.TOPIC, 9)), None, None, None)
  }

  function Ask(m: Id): Outbox.Step {
    Outbox.Speak(m, Outbox.PROACTIVE, CHANNEL, Some(Outbox.Candidate(Outbox.TOPIC, 9)), 0, 60)
  }

  function OneRow(): Outbox.Box { Outbox.Empty().(rows := map[1 := Asked()]) }

  // The second row supersedes the first.
  function TwoRows(): Outbox.Box {
    Outbox.Empty().(rows := map[1 := Asked().(status := Outbox.SUPERSEDED, supersededBy := Some(2)), 2 := Asked()])
  }

  lemma RowsAsked()
    ensures Outbox.Enabled(Outbox.Empty(), Ask(1)) && Outbox.Next(Outbox.Empty(), Ask(1)) == OneRow()
    ensures Outbox.Enabled(OneRow(), Ask(2)) && Outbox.Next(OneRow(), Ask(2)) == TwoRows()
  {
    assert Outbox.Next(Outbox.Empty(), Ask(1)).rows == OneRow().rows;
    assert Outbox.Next(OneRow(), Ask(2)).rows == TwoRows().rows;
  }

  // The first send of a fresh pump is under way.
  lemma FirstSends(window: int) returns (run: seq<Step>)
    ensures ValidRun(Init(window), run)
    ensures Exec(Init(window), run)
            == State(OneRow(), {1}, [], None, 0, window, Second([], true, Some(1), 0),
                     [Begun([]), Sends(1, Outbox.PROACTIVE, 0)])
  {
    RowsAsked();
    Extend(Init(window), [], Other(Ask(1)));
    hide Outbox.Next, Outbox.Enabled;
    run := PassSends(Init(window), [] + [Other(Ask(1))], [1]);
    assert [1][1..] == [] && {} + {1} == {1};
    assert [] + [Begun([]), Sends(1, Outbox.PROACTIVE, 0)] == [Begun([]), Sends(1, Outbox.PROACTIVE, 0)];
  }

  lemma CutAndReplaced(window: int, run: seq<Step>) returns (more: seq<Step>)
    requires ValidRun(Init(window), run)
    requires Exec(Init(window), run)
             == State(OneRow(), {1}, [], None, 0, window, Second([], true, Some(1), 0),
                      [Begun([]), Sends(1, Outbox.PROACTIVE, 0)])
    ensures ValidRun(Init(window), more)
    ensures Exec(Init(window), more)
            == State(TwoRows(), {1}, [], None, 0, window, Idle,
                     [Begun([]), Sends(1, Outbox.PROACTIVE, 0), Act.Cut(1, Outbox.PROACTIVE)])
  {
    RowsAsked();
    Extend(Init(window), run, Cancel);
    hide Outbox.Next, Outbox.Enabled;
    Extend(Init(window), run + [Cancel], Other(Ask(2)));
    more := run + [Cancel] + [Other(Ask(2))];
  }

  // A cut attempt leaves the window open: from the start, the item that replaces the cut one is
  // sent at the same moment, whatever the window.
  lemma CancelledSend(window: int) returns (run: seq<Step>)
    requires window > 0
    ensures ValidRun(Init(window), run) && !StartsSpaced(Exec(Init(window), run).history, window)
  {
    var sending := FirstSends(window);
    var replaced := CutAndReplaced(window, sending);
    run := PassSends(Init(window), replaced, [2]);
    var h := Exec(Init(window), run).history;
    hide ValidRun, Exec;
    assert h == [Begun([]), Sends(1, Outbox.PROACTIVE, 0), Act.Cut(1, Outbox.PROACTIVE), Begun([]), Sends(2, Outbox.PROACTIVE, 0)];
    assert IsProactive(h[1]) && IsProactive(h[4]) && SameSession(h, 1, 4);
  }

  lemma SentAndRestarted(window: int, run: seq<Step>) returns (more: seq<Step>)
    requires ValidRun(Init(window), run)
    requires Exec(Init(window), run)
             == State(OneRow(), {1}, [], None, 0, window, Second([], true, Some(1), 0),
                      [Begun([]), Sends(1, Outbox.PROACTIVE, 0)])
    ensures ValidRun(Init(window), more)
    ensures Exec(Init(window), more)
            == Init(window).(box := OneRow(), history := [Begun([]), Sends(1, Outbox.PROACTIVE, 0),
                                                          Sent(1, Outbox.PROACTIVE, 0), Restarted])
  {
    var sent := SecondSent(false, Outbox.NO_CLIENT);
    Extend(Init(window), run, sent);
    Extend(Init(window), run + [sent], Restart(0));
    more := run + [sent] + [Restart(0)];
  }

  // A restart forgets both promises: before its result is reduced the same message is sent again,
  // and at once.
  lemma RestartResends(window: int) returns (run: seq<Step>)
    ensures ValidRun(Init(window), run)
    ensures var h := Exec(Init(window), run).history;
            && (exists i, j :: 0 <= i < j < |h| && h[i] == h[j] == Sends(1, Outbox.PROACTIVE, 0))
            && forall k :: 0 <= k < |h| ==> !h[k].Reduced?
  {
    var sending := FirstSends(window);
    var before := SentAndRestarted(window, sending);
    run := PassSends(Init(window), before, [1]);
    var h := Exec(Init(window), run).history;
    hide ValidRun, Exec;
    assert h == [Begun([]), Sends(1, Outbox.PROACTIVE, 0), Sent(1, Outbox.PROACTIVE, 0), Restarted,
                 Begun([]), Sends(1, Outbox.PROACTIVE, 0)];
    assert h[1] == h[5] == Sends(1, Outbox.PROACTIVE, 0);
  }
}
