// Claims on memories: a wake claims the memory it picks for enrichment, and the result of its work
// item gives the claim back. Exactly when two items hold a claim on one memory, and when a claim
// is left with nobody to give it back.
//
// The steps of the topic graph are the proposals of results, and everything else that moves
// memories; claiming and releasing happen only with a work item.
module Claims {
  import opened Base
  import opened TopicGraph
  import Outbox

  // A proactive work item about a memory: whether its wake claimed the memory, and whether its
  // result is still to come. An item leased again by a restart is the same item, still active.
  datatype Job = Job(memory: Id, claims: bool, active: bool)

  datatype State = State(g: Graph, jobs: map<Id, Job>)

  datatype Step =
    | Wake(w: Id, m: Id)      // a wake picks memory m and creates item w
    | Finish(w: Id)           // a well-formed result of w is reduced
    | Lapse(w: Id)            // the worker of w gave up, or its result does not parse
    | Change(step: TopicGraph.Step)

  predicate Eligible(p: Policy, memory: Memory) { memory.status.RAW? && memory.salience >= p.salienceFloor }

  ghost predicate Enabled(p: Policy, s: State, step: Step) {
    match step
    case Wake(w, m) => w !in s.jobs && m in s.g.memories && !s.g.memories[m].status.ENRICHED?
    case Finish(w) => w in s.jobs && s.jobs[w].active
    case Lapse(w) => w in s.jobs && s.jobs[w].active
    case Change(step) => TopicGraph.Enabled(p, s.g, step) && !step.ClaimMemory? && !step.ReleaseMemory?
  }

  function Next(p: Policy, s: State, step: Step): State
    requires Enabled(p, s, step)
  {
    match step
    case Wake(w, m) => State(Claim(p, s.g, m), s.jobs[w := Job(m, Eligible(p, s.g.memories[m]), true)])
    case Finish(w) => State(Release(p, s.g, s.jobs[w].memory), s.jobs[w := s.jobs[w].(active := false)])
    case Lapse(w) => s.(jobs := s.jobs[w := s.jobs[w].(active := false)])
    case Change(step) => s.(g := TopicGraph.Next(p, s.g, step))
  }

  ghost predicate ValidRun(p: Policy, s: State, run: seq<Step>)
    decreases |run|
  {
    run == [] || (Enabled(p, s, run[0]) && ValidRun(p, Next(p, s, run[0]), run[1..]))
  }

  function Exec(p: Policy, s: State, run: seq<Step>): State
    requires ValidRun(p, s, run)
    decreases |run|
  {
    if run == [] then s else Exec(p, Next(p, s, run[0]), run[1..])
  }

  function Init(): State { State(TopicGraph.Empty(), map[]) }

  // ---------------------------------------------------------------- what a step does to a memory

  predicate Pending(s: State, m: Id) { m in s.g.memories && s.g.memories[m].status.PENDING_ENRICHMENT? }

  // The step enriches memory m, or turns it down for good.
  predicate Decides(s: State, step: Step, m: Id) {
    step.Change? && step.step.EnrichMemory? && step.step.m == m && m in s.g.memories && !s.g.memories[m].status.ENRICHED?
  }

  lemma ChangeMemories(p: Policy, g: Graph, step: TopicGraph.Step)
    requires TopicGraph.Enabled(p, g, step) && !step.ClaimMemory? && !step.ReleaseMemory?
    ensures var g' := TopicGraph.Next(p, g, step);
            && (forall m :: m in g.memories ==>
                  && m in g'.memories
                  && if step.EnrichMemory? && step.m == m && !g.memories[m].status.ENRICHED?
                     then g'.memories[m].status in {ENRICHED, DO_NOT_ENRICH} else g'.memories[m] == g.memories[m])
            && (forall m :: m in g'.memories && m !in g.memories ==> g'.memories[m].status.RAW?)
  {
    hide MostSimilar, Hottest, FreshTopic, HasPending, Outbox.Next, Outbox.Enabled, Nearest;
  }

  // No memory disappears, only a wake claims, and only the finishing of an item gives back.
  lemma MemoryNext(p: Policy, s: State, step: Step, m: Id)
    requires Enabled(p, s, step) && m in s.g.memories
    ensures var before, s' := s.g.memories[m], Next(p, s, step);
            && m in s'.g.memories
            && var after := s'.g.memories[m];
               if Decides(s, step, m) then after.status in {ENRICHED, DO_NOT_ENRICH}
               else if step.Wake? && step.m == m && Eligible(p, before) then after == before.(status := PENDING_ENRICHMENT)
               else if step.Finish? && s.jobs[step.w].memory == m && before.status.PENDING_ENRICHMENT?
               then after == before.(status := if before.attempts + 1 >= p.maxAttempts then DO_NOT_ENRICH else RAW,
                                     attempts := before.attempts + 1)
               else after == before
  {
    if step.Change? {
      ChangeMemories(p, s.g, step.step);
      hide TopicGraph.Next, TopicGraph.Enabled;
    }
  }

  lemma NewMemory(p: Policy, s: State, step: Step, m: Id)
    requires Enabled(p, s, step) && m !in s.g.memories && m in Next(p, s, step).g.memories
    ensures step.Change? && Next(p, s, step).g.memories[m].status.RAW?
  {
    if step.Change? {
      ChangeMemories(p, s.g, step.step);
      hide TopicGraph.Next, TopicGraph.Enabled;
    }
  }

  // ---------------------------------------------------------------- one claim at a time

  ghost predicate Claimer(s: State, w: Id, m: Id) { w in s.jobs && s.jobs[w] == Job(m, true, true) }

  // A memory claimed by an item under way cannot be claimed again, and no two items claim one.
  ghost predicate Guarded(s: State) {
    && (forall w, m :: Claimer(s, w, m) ==> m in s.g.memories && !s.g.memories[m].status.RAW?)
    && (forall v, w, m :: Claimer(s, v, m) && Claimer(s, w, m) ==> v == w)
  }

  // The result of one item gives back a claim that another item under way had made.
  ghost predicate GivesAway(p: Policy, s: State, step: Step) {
    && step.Finish? && step.w in s.jobs
    && var m := s.jobs[step.w].memory;
       && Pending(s, m) && s.g.memories[m].attempts + 1 < p.maxAttempts
       && exists v :: v != step.w && Claimer(s, v, m)
  }

  // Who claims after a step: the same as before, but for the item created or ended by it.
  lemma ClaimersNext(p: Policy, s: State, step: Step, v: Id, m: Id)
    requires Enabled(p, s, step)
    ensures Claimer(Next(p, s, step), v, m)
            <==> || (Claimer(s, v, m) && !((step.Finish? || step.Lapse?) && step.w == v))
                 || (step.Wake? && step.w == v && step.m == m && Eligible(p, s.g.memories[m]))
  {
    hide Claim, Release, TopicGraph.Next, TopicGraph.Enabled;
  }

  lemma WakeGuards(p: Policy, s: State, step: Step)
    requires Guarded(s) && Enabled(p, s, step) && step.Wake?
    ensures Guarded(Next(p, s, step))
  {
    var s' := Next(p, s, step);
    forall v, m ensures Claimer(s', v, m) <==> Claimer(s, v, m) || (v == step.w && m == step.m && Eligible(p, s.g.memories[m])) {
      ClaimersNext(p, s, step, v, m);
    }
    forall m | m in s.g.memories ensures m in s'.g.memories && (s'.g.memories[m].status.RAW? ==> s.g.memories[m].status.RAW?) {
      MemoryNext(p, s, step, m);
    }
    MemoryNext(p, s, step, step.m);
    hide Next, Enabled;
  }

  lemma FinishGuards(p: Policy, s: State, step: Step)
    requires Guarded(s) && Enabled(p, s, step) && step.Finish?
    ensures Guarded(Next(p, s, step)) <==> !GivesAway(p, s, step)
  {
    var s', mine := Next(p, s, step), s.jobs[step.w].memory;
    forall v, m ensures Claimer(s', v, m) <==> Claimer(s, v, m) && v != step.w { ClaimersNext(p, s, step, v, m); }
    forall m | m in s.g.memories
      ensures m in s'.g.memories
      ensures s'.g.memories[m].status.RAW? <==>
                s.g.memories[m].status.RAW? || (m == mine && Pending(s, m) && s.g.memories[m].attempts + 1 < p.maxAttempts)
    {
      MemoryNext(p, s, step, m);
    }
    hide Next, Enabled, Claimer;
    if GivesAway(p, s, step) {
      var v :| v != step.w && Claimer(s, v, mine);
      assert Claimer(s', v, mine);
    }
  }

  lemma OtherGuards(p: Policy, s: State, step: Step)
    requires Guarded(s) && Enabled(p, s, step) && (step.Lapse? || step.Change?)
    ensures Guarded(Next(p, s, step))
  {
    var s' := Next(p, s, step);
    forall v, m | Claimer(s', v, m) ensures Claimer(s, v, m) { ClaimersNext(p, s, step, v, m); }
    forall m | m in s.g.memories ensures m in s'.g.memories && (s'.g.memories[m].status.RAW? ==> s.g.memories[m].status.RAW?) {
      MemoryNext(p, s, step, m);
    }
    hide Next, Enabled, Claimer;
  }

  lemma GuardedNext(p: Policy, s: State, step: Step)
    requires Guarded(s) && Enabled(p, s, step)
    ensures Guarded(Next(p, s, step)) <==> !GivesAway(p, s, step)
  {
    hide Guarded, Next, Enabled;
    match step
    case Wake(_, _) => WakeGuards(p, s, step);
    case Finish(_) => FinishGuards(p, s, step);
    case Lapse(_) => OtherGuards(p, s, step);
    case Change(_) => OtherGuards(p, s, step);
  }

  ghost predicate AlwaysGuarded(p: Policy, s: State, run: seq<Step>)
    requires ValidRun(p, s, run)
    decreases |run|
  {
    Guarded(s) && (run == [] || AlwaysGuarded(p, Next(p, s, run[0]), run[1..]))
  }

  ghost predicate SomeGivenAway(p: Policy, s: State, run: seq<Step>)
    requires ValidRun(p, s, run)
    decreases |run|
  {
    run != [] && (GivesAway(p, s, run[0]) || SomeGivenAway(p, Next(p, s, run[0]), run[1..]))
  }

  lemma {:induction false} GuardedRun(p: Policy, s: State, run: seq<Step>)
    requires Guarded(s) && ValidRun(p, s, run)
    ensures AlwaysGuarded(p, s, run) <==> !SomeGivenAway(p, s, run)
    decreases |run|
  {
    hide Guarded, GivesAway, Next, Enabled;
    if run != [] {
      GuardedNext(p, s, run[0]);
      if Guarded(Next(p, s, run[0])) { GuardedRun(p, Next(p, s, run[0]), run[1..]); }
    }
  }

  // From an empty store: no memory has two enrichments in flight, and none can be claimed while one
  // is, all along, if and only if no result gives back a claim another item made.
  lemma OneClaimExactly(p: Policy, run: seq<Step>)
    requires ValidRun(p, Init(), run)
    ensures AlwaysGuarded(p, Init(), run) <==> !SomeGivenAway(p, Init(), run)
  {
    GuardedRun(p, Init(), run);
  }

  // Every item under way that did not claim is about a memory that is neither claimed nor claimable.
  ghost predicate Apart(p: Policy, s: State) {
    forall w :: w in s.jobs && s.jobs[w].active && !s.jobs[w].claims ==>
      var m := s.jobs[w].memory; m in s.g.memories && !Pending(s, m) && !Eligible(p, s.g.memories[m])
  }

  lemma ApartNext(p: Policy, s: State, step: Step)
    requires Apart(p, s) && Enabled(p, s, step) && (step.Wake? ==> !Pending(s, step.m))
    ensures Apart(p, Next(p, s, step))
  {
    var s' := Next(p, s, step);
    forall w | w in s'.jobs && s'.jobs[w].active && !s'.jobs[w].claims
      ensures var m := s'.jobs[w].memory; m in s'.g.memories && !Pending(s', m) && !Eligible(p, s'.g.memories[m])
    {
      assert w in s.jobs && !step.Wake? ==> s'.jobs[w] == s.jobs[w];
      MemoryNext(p, s, step, s'.jobs[w].memory);
    }
  }

  lemma ApartKeeps(p: Policy, s: State, step: Step)
    requires Guarded(s) && Apart(p, s) && Enabled(p, s, step)
    ensures !GivesAway(p, s, step)
  {
    if GivesAway(p, s, step) {
      var m := s.jobs[step.w].memory;
      var v :| v != step.w && Claimer(s, v, m);
      assert Claimer(s, step.w, m);
    }
  }

  // No wake of the run picks a memory that is claimed.
  ghost predicate NoRepick(p: Policy, s: State, run: seq<Step>)
    requires ValidRun(p, s, run)
    decreases |run|
  {
    run == [] || ((run[0].Wake? ==> !Pending(s, run[0].m)) && NoRepick(p, Next(p, s, run[0]), run[1..]))
  }

  lemma {:induction false} ApartRun(p: Policy, s: State, run: seq<Step>)
    requires Guarded(s) && Apart(p, s) && ValidRun(p, s, run) && NoRepick(p, s, run)
    ensures AlwaysGuarded(p, s, run)
    decreases |run|
  {
    hide Guarded, Apart, GivesAway, Next, Enabled;
    if run != [] {
      ApartKeeps(p, s, run[0]);
      GuardedNext(p, s, run[0]);
      ApartNext(p, s, run[0]);
      ApartRun(p, Next(p, s, run[0]), run[1..]);
    }
  }

  // In particular it is so while no wake picks a claimed memory, to speak of it.
  lemma OneClaimUnlessRepicked(p: Policy, run: seq<Step>)
    requires ValidRun(p, Init(), run) && NoRepick(p, Init(), run)
    ensures AlwaysGuarded(p, Init(), run)
  {
    ApartRun(p, Init(), run);
  }

  // ---------------------------------------------------------------- a claim nobody gives back

  // An item about memory m is under way.
  ghost predicate Tended(s: State, m: Id) { exists w :: w in s.jobs && s.jobs[w].active && s.jobs[w].memory == m }

  ghost predicate Stray(s: State, m: Id) { Pending(s, m) && !Tended(s, m) }

  ghost predicate TendedBut(s: State, m: Id, w: Id) {
    exists v :: v != w && v in s.jobs && s.jobs[v].active && s.jobs[v].memory == m
  }

  // The last item about the claimed memory ends without a result that could give the claim back.
  ghost predicate Strands(s: State, step: Step, m: Id) {
    step.Lapse? && step.w in s.jobs && s.jobs[step.w].memory == m && Pending(s, m) && !TendedBut(s, m, step.w)
  }

  ghost predicate TakesUp(s: State, step: Step, m: Id) { (step.Wake? && step.m == m) || Decides(s, step, m) }

  lemma TendedNext(p: Policy, s: State, step: Step, m: Id)
    requires Enabled(p, s, step)
    ensures Tended(Next(p, s, step), m)
            <==> if step.Wake? && step.m == m then true
                 else if (step.Finish? || step.Lapse?) && s.jobs[step.w].memory == m then TendedBut(s, m, step.w)
                 else Tended(s, m)
  {
    hide Claim, Release, TopicGraph.Next, TopicGraph.Enabled;
    var s' := Next(p, s, step);
    if w :| w in s.jobs && s.jobs[w].active && s.jobs[w].memory == m && !((step.Finish? || step.Lapse?) && step.w == w) {
      assert w in s'.jobs && s'.jobs[w] == s.jobs[w];
    }
    if w :| w in s'.jobs && s'.jobs[w].active && s'.jobs[w].memory == m && !(step.Wake? && step.w == w) {
      assert w in s.jobs && s.jobs[w] == s'.jobs[w];
    }
    if step.Wake? { assert s'.jobs[step.w].active; }
  }

  // A claim goes stray exactly when its last item lapses; a wake that picks the memory again, or a
  // result that enriches it, takes it up. A restart does not: the item is over.
  lemma StrayNext(p: Policy, s: State, step: Step, m: Id)
    requires Enabled(p, s, step)
    ensures Stray(Next(p, s, step), m) <==> (Stray(s, m) && !TakesUp(s, step, m)) || Strands(s, step, m)
  {
    TendedNext(p, s, step, m);
    if m in s.g.memories {
      MemoryNext(p, s, step, m);
    } else if m in Next(p, s, step).g.memories {
      NewMemory(p, s, step, m);
    }
    if (step.Finish? || step.Lapse?) && s.jobs[step.w].memory == m { assert Tended(s, m); }
    hide Next, Tended, TendedBut;
  }

  ghost predicate LeftStray(p: Policy, s: State, run: seq<Step>, m: Id, before: bool)
    requires ValidRun(p, s, run)
    decreases |run|
  {
    if run == [] then before
    else LeftStray(p, Next(p, s, run[0]), run[1..], m, (before && !TakesUp(s, run[0], m)) || Strands(s, run[0], m))
  }

  lemma {:induction false} StrayRun(p: Policy, s: State, run: seq<Step>, m: Id)
    requires ValidRun(p, s, run)
    ensures Stray(Exec(p, s, run), m) <==> LeftStray(p, s, run, m, Stray(s, m))
    decreases |run|
  {
    hide Stray, TakesUp, Strands, Next, Enabled;
    if run != [] {
      StrayNext(p, s, run[0], m);
      StrayRun(p, Next(p, s, run[0]), run[1..], m);
    }
  }

  // From an empty store: a claimed memory has an item under way that can give the claim back, if and
  // only if no item about it lapsed as the last one, with nothing taking the memory up since.
  lemma EveryClaimIsTended(p: Policy, run: seq<Step>, m: Id)
    requires ValidRun(p, Init(), run) && Pending(Exec(p, Init(), run), m)
    ensures Tended(Exec(p, Init(), run), m) <==> !LeftStray(p, Init(), run, m, false)
  {
    StrayRun(p, Init(), run, m);
  }

  // ---------------------------------------------------------------- instances

  lemma {:induction false} Extend(p: Policy, s: State, run: seq<Step>, step: Step)
    requires ValidRun(p, s, run) && Enabled(p, Exec(p, s, run), step)
    ensures ValidRun(p, s, run + [step]) && Exec(p, s, run + [step]) == Next(p, Exec(p, s, run), step)
    decreases |run|
  {
    hide Next, Enabled;
    if run == [] {
      assert run + [step] == [step];
    } else {
      Extend(p, Next(p, s, run[0]), run[1..], step);
      assert (run + [step])[1..] == run[1..] + [step];
    }
  }

  function Fact(status: Enrichment, attempts: nat): Memory { Memory("fact", 0.5, 0.5, status, attempts) }

  function With(status: Enrichment, attempts: nat, jobs: map<Id, Job>): State {
    State(TopicGraph.Empty().(memories := map[11 := Fact(status, attempts)]), jobs)
  }

  lemma Claimed(p: Policy) returns (run: seq<Step>)
    requires p.salienceFloor <= 0.5
    ensures ValidRun(p, Init(), run) && Exec(p, Init(), run) == With(PENDING_ENRICHMENT, 0, map[1 := Job(11, true, true)])
  {
    var remember := Change(Remember(11, Fact(RAW, 0)));
    Extend(p, Init(), [], remember);
    assert Next(p, Init(), remember) == With(RAW, 0, map[]);
    Extend(p, Init(), [] + [remember], Wake(1, 11));
    assert Next(p, With(RAW, 0, map[]), Wake(1, 11)).g.memories == map[11 := Fact(PENDING_ENRICHMENT, 0)];
    run := [] + [remember] + [Wake(1, 11)];
  }

  // From an empty store: a second wake picks the claimed memory to speak of it, its result gives the
  // claim back, and a third wake claims the memory while the first enrichment is still in flight.
  lemma TwoClaims(p: Policy) returns (run: seq<Step>)
    requires p.salienceFloor <= 0.5 && p.maxAttempts > 1
    ensures ValidRun(p, Init(), run) && Claimer(Exec(p, Init(), run), 1, 11) && Claimer(Exec(p, Init(), run), 3, 11)
  {
    run := Claimed(p);
    var s := Exec(p, Init(), run);
    var jobs := s.jobs[2 := Job(11, false, true)];
    assert Next(p, s, Wake(2, 11)) == With(PENDING_ENRICHMENT, 0, jobs);
    Extend(p, Init(), run, Wake(2, 11));
    run := run + [Wake(2, 11)];
    var after := jobs[2 := Job(11, false, false)];
    assert Next(p, With(PENDING_ENRICHMENT, 0, jobs), Finish(2)).g.memories == map[11 := Fact(RAW, 1)];
    assert Next(p, With(PENDING_ENRICHMENT, 0, jobs), Finish(2)) == With(RAW, 1, after);
    Extend(p, Init(), run, Finish(2));
    run := run + [Finish(2)];
    Extend(p, Init(), run, Wake(3, 11));
    run := run + [Wake(3, 11)];
  }

  // From an empty store: the worker of the claiming item gives up, and the memory stays claimed.
  lemma ClaimStrays(p: Policy) returns (run: seq<Step>)
    requires p.salienceFloor <= 0.5
    ensures ValidRun(p, Init(), run) && Stray(Exec(p, Init(), run), 11)
  {
    run := Claimed(p);
    Extend(p, Init(), run, Lapse(1));
    run := run + [Lapse(1)];
  }
}
