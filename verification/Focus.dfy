// The discourse subject: what is on the floor, what was just closed, and who may write it.
//
// A human turn writes the pair provisionally; the model's result for that turn, arriving later and
// possibly after other turns, may override it from the snapshot taken before the turn.
module Focus {
  import opened Base

  datatype Pair = Pair(focus: Option<Id>, closed: Option<Id>)

  // A reduced turn: its stamp, which is also the creation time of its work, and the pair before it.
  datatype Turn = Turn(at: int, prior: Pair)

  datatype Transition = KEEP | CLEAR | REPLACE(memory: Option<Id>)

  datatype State = State(
    pair: Pair,
    last: Option<int>,        // last_human_message_at
    memories: set<Id>,
    turns: seq<Turn>,
    works: map<Id, nat>)      // generative items in flight, by the turn that created them

  // ---------------------------------------------------------------- a human turn

  function NextFocus(current: Option<Id>, setting: bool, memory: Option<Id>, dormant: bool): Option<Id> {
    if setting && memory.Some? then memory else if dormant then None else current
  }

  function NextClosed(current: Option<Id>, focus: Option<Id>, dormant: bool): Option<Id> {
    if focus.Some? || dormant then None else current
  }

  function Provisional(p: Pair, setting: bool, memory: Option<Id>, dormant: bool): Pair {
    var focus := NextFocus(p.focus, setting, memory, dormant);
    Pair(focus, NextClosed(p.closed, focus, dormant))
  }

  // ---------------------------------------------------------------- a late result

  // `resolve_focus_transition`: the overriding focus; anything unusable counts as KEEP.
  function NewFocus(t: Transition, prior: Pair, memories: set<Id>): Option<Id> {
    match t
    case CLEAR => None
    case REPLACE(m) => if m.Some? && m.value in memories then m else prior.focus
    case KEEP => prior.focus
  }

  function Override(t: Transition, prior: Pair, memories: set<Id>): Pair {
    var focus := NewFocus(t, prior, memories);
    var closed :=
      if t.CLEAR? then if prior.focus.Some? then prior.focus else prior.closed
      else if focus.Some? then None
      else prior.closed;
    Pair(focus, closed)
  }

  // The staleness guard: only the stamp of the turn reduced last is consulted.
  predicate Stale(s: State, created: int) { s.last.Some? && s.last.value > created }

  // ---------------------------------------------------------------- steps

  datatype Step =
    // `memory` is the turn's own memory, if one is created; `item` its generative work, if any
    | HumanTurn(at: int, setting: bool, memory: Option<Id>, dormant: bool, item: Option<Id>)
    | LateResult(work: Id, transition: Option<Transition>)

  predicate Enabled(s: State, step: Step) {
    match step
    case HumanTurn(_, _, memory, _, item) =>
      (memory.Some? ==> memory.value !in s.memories) && (item.Some? ==> item.value !in s.works)
    case LateResult(work, _) => work in s.works && s.works[work] < |s.turns|
  }

  predicate Writes(s: State, step: Step)
    requires step.LateResult? && Enabled(s, step)
  {
    step.transition.Some? && !Stale(s, s.turns[s.works[step.work]].at)
  }

  function Next(s: State, step: Step): State
    requires Enabled(s, step)
  {
    match step
    case HumanTurn(at, setting, memory, dormant, item) =>
      State(Provisional(s.pair, setting, memory, dormant), Some(at),
            if memory.Some? then s.memories + {memory.value} else s.memories,
            s.turns + [Turn(at, s.pair)],
            if item.Some? then s.works[item.value := |s.turns|] else s.works)
    case LateResult(work, transition) =>
      if Writes(s, step) then s.(pair := Override(transition.value, s.turns[s.works[work]].prior, s.memories)) else s
  }

  predicate ValidRun(s: State, run: seq<Step>)
    decreases |run|
  {
    run == [] || (Enabled(s, run[0]) && ValidRun(Next(s, run[0]), run[1..]))
  }

  function Exec(s: State, run: seq<Step>): State
    requires ValidRun(s, run)
    decreases |run|
  {
    if run == [] then s else Exec(Next(s, run[0]), run[1..])
  }

  function Init(): State { State(Pair(None, None), None, {}, [], map[]) }

  // ---------------------------------------------------------------- invariant

  // Not both a live and a closed subject, and only memories that exist.
  predicate PairOk(p: Pair, memories: set<Id>) {
    && !(p.focus.Some? && p.closed.Some?)
    && (p.focus.Some? ==> p.focus.value in memories) && (p.closed.Some? ==> p.closed.value in memories)
  }

  ghost predicate Inv(s: State) {
    && PairOk(s.pair, s.memories)
    && (forall i :: 0 <= i < |s.turns| ==> PairOk(s.turns[i].prior, s.memories))
    && (forall w :: w in s.works ==> s.works[w] < |s.turns|)
    && s.last == if s.turns == [] then None else Some(s.turns[|s.turns| - 1].at)
  }

  lemma InvNext(s: State, step: Step)
    requires Inv(s) && Enabled(s, step)
    ensures Inv(Next(s, step))
  {
  }

  // In live state and in every stored snapshot, over every run.
  lemma {:induction false} InvRun(s: State, run: seq<Step>)
    requires Inv(s) && ValidRun(s, run)
    ensures Inv(Exec(s, run)) && s.memories <= Exec(s, run).memories && s.turns <= Exec(s, run).turns
    decreases |run|
  {
    if run != [] {
      InvNext(s, run[0]);
      InvRun(Next(s, run[0]), run[1..]);
    }
  }

  // ---------------------------------------------------------------- what human turns amount to

  // The turn puts its own memory on the floor.
  predicate Sets(step: Step, m: Id) { step.HumanTurn? && step.setting && step.memory == Some(m) }

  // The turn neither sets a subject nor follows a lull.
  predicate Keeps(step: Step) { step.HumanTurn? && !step.dormant && !(step.setting && step.memory.Some?) }

  // After a lull a turn that sets no memory of its own leaves no subject, live or closed; without a
  // lull it leaves both as they were; and a turn that sets one leaves that alone.
  lemma TurnExact(s: State, step: Step)
    requires Inv(s) && Enabled(s, step) && step.HumanTurn?
    ensures var p := Next(s, step).pair;
            && (forall m: Id :: Sets(step, m) ==> p == Pair(Some(m), None))
            && (step.dormant && (forall m: Id :: !Sets(step, m)) ==> p == Pair(None, None))
            && (Keeps(step) ==> p == s.pair)
  {
    if step.setting && step.memory.Some? { assert Sets(step, step.memory.value); }
  }

  ghost predicate KeptSince(run: seq<Step>, i: int) { forall j :: i < j < |run| && 0 <= j ==> Keeps(run[j]) }

  // The last turn that set a subject set m, and no lull came since.
  ghost predicate SetLast(run: seq<Step>, m: Id) { exists i :: 0 <= i < |run| && Sets(run[i], m) && KeptSince(run, i) }

  predicate OnlyTurns(run: seq<Step>) { forall i :: 0 <= i < |run| ==> run[i].HumanTurn? }

  lemma TailKept(run: seq<Step>, i: int)
    requires run != [] && 0 <= i < |run|
    ensures KeptSince(run, i) <==> KeptSince(run[1..], i - 1)
  {
    assert forall j :: 1 <= j < |run| ==> run[1..][j - 1] == run[j];
    if KeptSince(run[1..], i - 1) {
      forall j | i < j < |run| ensures Keeps(run[j]) { assert run[1..][j - 1] == run[j]; }
    }
  }

  lemma TailSet(run: seq<Step>, m: Id)
    requires run != []
    ensures SetLast(run, m) <==> SetLast(run[1..], m) || (Sets(run[0], m) && KeptSince(run[1..], -1))
    ensures KeptSince(run, -1) <==> Keeps(run[0]) && KeptSince(run[1..], -1)
  {
    TailKept(run, 0);
    assert KeptSince(run, -1) <==> Keeps(run[0]) && KeptSince(run, 0);
    if i :| 0 <= i < |run| && Sets(run[i], m) && KeptSince(run, i) {
      TailKept(run, i);
      if i > 0 { assert Sets(run[1..][i - 1], m); }
    }
    if i :| 0 <= i < |run[1..]| && Sets(run[1..][i], m) && KeptSince(run[1..], i) {
      TailKept(run, i + 1);
      assert Sets(run[i + 1], m);
    }
  }

  // Over any run of human turns: a memory is the subject exactly when the last turn that set one set
  // it, or it was the subject and no turn set another, and no lull came since; and a subject that
  // was closed stays closed exactly until a turn sets one or follows a lull.
  lemma {:induction false} SubjectRun(s: State, run: seq<Step>)
    requires Inv(s) && ValidRun(s, run) && OnlyTurns(run)
    ensures forall m: Id :: Exec(s, run).pair.focus == Some(m) <==> SetLast(run, m) || (s.pair.focus == Some(m) && KeptSince(run, -1))
    ensures forall m: Id :: Exec(s, run).pair.closed == Some(m) <==> s.pair.closed == Some(m) && KeptSince(run, -1)
    decreases |run|
  {
    if run == [] {
      assert forall m: Id :: !SetLast(run, m);
    } else {
      TurnExact(s, run[0]);
      InvNext(s, run[0]);
      forall m: Id ensures SetLast(run, m) <==> SetLast(run[1..], m) || (Sets(run[0], m) && KeptSince(run[1..], -1)) {
        TailSet(run, m);
      }
      TailSet(run, 0);
      SubjectRun(Next(s, run[0]), run[1..]);
      OneSubject(s, run[0]);
      hide Next, Enabled, SetLast, KeptSince, Inv;
    }
  }

  // The pair after one turn, by cases.
  lemma OneSubject(s: State, step: Step)
    requires Inv(s) && Enabled(s, step) && step.HumanTurn?
    ensures forall m: Id :: Next(s, step).pair.focus == Some(m) <==> Sets(step, m) || (s.pair.focus == Some(m) && Keeps(step))
    ensures forall m: Id :: Next(s, step).pair.closed == Some(m) <==> s.pair.closed == Some(m) && Keeps(step)
  {
    TurnExact(s, step);
    if step.setting && step.memory.Some? { assert Sets(step, step.memory.value); }
  }

  // ---------------------------------------------------------------- what each transition means

  // Whatever the provisional write and other results did to the pair since the turn, a result
  // that writes leaves: for KEEP (or an unusable REPLACE) exactly the pair from before the turn;
  // for REPLACE its memory alone; for CLEAR no focus, and a closed subject if any was known.
  lemma OverrideMeaning(s: State, step: Step)
    requires Inv(s) && step.LateResult? && Enabled(s, step) && Writes(s, step)
    ensures var prior, p := s.turns[s.works[step.work]].prior, Next(s, step).pair;
            match step.transition.value
            case KEEP => p == prior
            case REPLACE(m) => if m.Some? && m.value in s.memories then p == Pair(m, None) else p == prior
            case CLEAR =>
              && p.focus.None?
              && (prior.focus.Some? ==> p.closed == prior.focus)
              && (prior.focus.None? ==> p.closed == prior.closed)
              && (p.closed.None? <==> prior == Pair(None, None))
  {
    assert PairOk(s.turns[s.works[step.work]].prior, s.memories);
  }

  // ---------------------------------------------------------------- the staleness guard, exactly

  // Some turn with a later stamp was reduced after the item was created, or at all.
  predicate Overtaken(s: State, w: Id)
    requires w in s.works && s.works[w] < |s.turns|
  {
    exists j | 0 <= j < |s.turns| :: s.turns[j].at > s.turns[s.works[w]].at
  }

  // ... but the turn reduced last does not have one.
  predicate Missed(s: State, w: Id)
    requires w in s.works && s.works[w] < |s.turns|
  {
    Overtaken(s, w) && s.turns[|s.turns| - 1].at <= s.turns[s.works[w]].at
  }

  // A result with a transition writes exactly when no later-stamped turn was reduced, except when
  // the turn reduced last carries an older stamp and hides the later one from the guard.
  lemma GuardExact(s: State, step: Step)
    requires Inv(s) && step.LateResult? && Enabled(s, step) && step.transition.Some?
    ensures Writes(s, step) <==> !Overtaken(s, step.work) || Missed(s, step.work)
  {
    var n := |s.turns| - 1;
    if s.turns[n].at > s.turns[s.works[step.work]].at { assert Overtaken(s, step.work); }
  }

  predicate Ordered(turns: seq<Turn>) { forall i, j :: 0 <= i < j < |turns| ==> turns[i].at <= turns[j].at }

  // With stamps that never go back the guard is right for every result.
  lemma OrderedStamps(s: State, step: Step)
    requires Inv(s) && Ordered(s.turns) && step.LateResult? && Enabled(s, step) && step.transition.Some?
    ensures Writes(s, step) <==> !Overtaken(s, step.work)
  {
    GuardExact(s, step);
  }

  // With a stamp that goes back it is not: the first turn's result overwrites the subject after
  // two newer turns, because the last of them is stamped no later than the first.
  lemma HiddenTurn()
    ensures var run := [HumanTurn(5, true, Some(1), false, Some(10)), HumanTurn(9, true, Some(2), false, Some(20)),
                        HumanTurn(5, true, Some(3), false, Some(30))];
            && ValidRun(Init(), run)
            && var s := Exec(Init(), run);
               var late := LateResult(10, Some(KEEP));
               && s.pair == Pair(Some(3), None) && Enabled(s, late) && Overtaken(s, 10) && Writes(s, late)
               && Next(s, late).pair == Pair(None, None)
  {
    var a, b, c := HumanTurn(5, true, Some(1), false, Some(10)), HumanTurn(9, true, Some(2), false, Some(20)),
                   HumanTurn(5, true, Some(3), false, Some(30));
    var s1 := Next(Init(), a);
    var s2 := Next(s1, b);
    var s3 := Next(s2, c);
    assert [a, b, c][1..] == [b, c] && [b, c][1..] == [c] && [c][1..] == [];
    assert Exec(s2, [c]) == s3;
    assert Exec(s1, [b, c]) == s3;
    assert s3.turns[1].at > s3.turns[s3.works[10]].at;
  }

  // ---------------------------------------------------------------- late results change nothing

  // The run without the results that arrive after a later-stamped turn.
  function Timely(s: State, run: seq<Step>): seq<Step>
    requires ValidRun(s, run)
    decreases |run|
  {
    if run == [] then []
    else
      var rest := Timely(Next(s, run[0]), run[1..]);
      if run[0].LateResult? && Overtaken(s, run[0].work) then rest else [run[0]] + rest
  }

  ghost predicate StampsOrdered(s: State, run: seq<Step>)
    requires ValidRun(s, run)
    decreases |run|
  {
    Ordered(s.turns) && (run == [] || StampsOrdered(Next(s, run[0]), run[1..]))
  }

  // Over runs whose stamps never go back, dropping every overtaken result gives the same state:
  // the subject after any interleaving is the one of the turns and their timely results alone.
  lemma {:induction false} TimelySame(s: State, run: seq<Step>)
    requires Inv(s) && ValidRun(s, run) && StampsOrdered(s, run)
    ensures ValidRun(s, Timely(s, run)) && Exec(s, Timely(s, run)) == Exec(s, run)
    decreases |run|
  {
    if run != [] {
      InvNext(s, run[0]);
      TimelySame(Next(s, run[0]), run[1..]);
      var rest := Timely(Next(s, run[0]), run[1..]);
      if run[0].LateResult? && Overtaken(s, run[0].work) {
        if run[0].transition.Some? { OrderedStamps(s, run[0]); }
        assert Next(s, run[0]) == s;
      } else {
        assert ([run[0]] + rest)[1..] == rest;
      }
    }
  }

  // ---------------------------------------------------------------- the conversation row, in place

  class Conversation {
    var focus: Option<Id>
    var closed: Option<Id>
    var last: Option<int>

    ghost function Value(): Pair
      reads this
    {
      Pair(focus, closed)
    }

    constructor ()
      ensures Value() == Pair(None, None) && last == None
    {
      focus, closed, last := None, None, None;
    }

    // The provisional write of a turn; the snapshot handed to its work is the pair before it.
    method OnHumanTurn(at: int, setting: bool, memory: Option<Id>, dormant: bool) returns (prior: Pair)
      modifies this
      ensures Value() == Provisional(old(Value()), setting, memory, dormant)
      ensures prior == old(Value()) && last == Some(at)
    {
      prior := Pair(focus, closed);
      var next := focus;
      if setting && memory.Some? {
        next := memory;
      } else if dormant {
        next := None;
      }
      if next.Some? || dormant { closed := None; }
      focus := next;
      last := Some(at);
    }

    method ApplyFocusTransition(created: int, prior: Pair, transition: Option<Transition>, memories: set<Id>)
      returns (wrote: bool)
      modifies `focus, `closed
      ensures var stale := last.Some? && last.value > created;
              && Value() == (if transition.Some? && !stale then Override(transition.value, prior, memories) else old(Value()))
              && (wrote <==> Value() != old(Value()))
    {
      if transition.None? { return false; }
      if last.Some? && last.value > created { return false; }
      var next, ended := NewFocus(transition.value, prior, memories), prior.closed;
      if transition.value.CLEAR? {
        if prior.focus.Some? { ended := prior.focus; }
      } else if next.Some? {
        ended := None;
      }
      if focus == next && closed == ended { return false; }
      focus, closed := next, ended;
      wrote := true;
    }
  }
}
