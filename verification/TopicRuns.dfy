// Runs from the empty store on which a promise about merges fails: the exclusion of a topic just
// voiced through its source memory is lost, and a no_client report brings back a dead topic.
module TopicRuns {
  import opened Base
  import opened Vectors
  import opened TopicGraph
  import opened TopicMerge
  import Outbox

  // A configuration with both cuts on; its words never overlap and nothing is negated.
  function Configured(window: int): Policy {
    Policy(_ => false, (_, _) => 0.0, Similarity, 0.5, 0.5, 0.1, 3, window)
  }

  lemma {:induction false} Extend(p: Policy, g: Graph, run: seq<Step>, step: Step)
    requires ValidRun(p, g, run) && Enabled(p, Exec(p, g, run), step)
    ensures ValidRun(p, g, run + [step]) && Exec(p, g, run + [step]) == Next(p, Exec(p, g, run), step)
    decreases |run|
  {
    hide Next, Enabled;
    if run == [] {
      assert run + [step] == [step];
    } else {
      Extend(p, Next(p, g, run[0]), run[1..], step);
      assert (run + [step])[1..] == run[1..] + [step];
    }
  }

  // The run reaches g' from the empty store.
  ghost predicate Reaches(p: Policy, run: seq<Step>, g: Graph) { ValidRun(p, Empty(), run) && Exec(p, Empty(), run) == g }

  lemma Then(p: Policy, run: seq<Step>, g: Graph, step: Step, g': Graph)
    requires Reaches(p, run, g) && Enabled(p, g, step) && Next(p, g, step) == g'
    ensures Reaches(p, run + [step], g')
  {
    hide Next, Enabled;
    Extend(p, Empty(), run, step);
  }

  // ---------------------------------------------------------------- the states passed through

  function Fact(status: Enrichment): Memory { Memory("fact", 0.5, 0.5, status, 0) }
  function About(summary: string, m: Id): Topic { Topic(summary, 0.5, 0.5, false, 1, Some(m), 0) }

  function Voiced(): Outbox.Box {
    var row := Outbox.Message(Outbox.PROACTIVE, 5, Outbox.DELIVERED, Some(60), Some(MemoryCandidate(11)), Some(0), None, None);
    Outbox.Box(map[21 := row], [21], 1, map[MemoryCandidate(11) := 0], [Outbox.Attempt(21, true, 0, "")], Some(0))
  }

  // Memory 11 has just been voiced; topics 1 and 2 come from memories 11 and 12; topic 2 is embedded.
  function TwoTopics(): Graph {
    Graph(map[11 := Fact(ENRICHED), 12 := Fact(ENRICHED)], map[1 := About("a", 11), 2 := About("b", 12)],
          map[2 := Embedding(0, [1.0])], map[], Voiced())
  }

  lemma MemoryVoiced(p: Policy) returns (run: seq<Step>)
    ensures Reaches(p, run, Graph(map[11 := Fact(RAW), 12 := Fact(RAW)], map[], map[], map[], Voiced()))
  {
    var g0 := Empty();
    var g1 := g0.(memories := map[11 := Fact(RAW)]);
    var g2 := g0.(memories := map[11 := Fact(RAW), 12 := Fact(RAW)]);
    var row := Outbox.Message(Outbox.PROACTIVE, 5, Outbox.PENDING_DELIVERY, Some(60), Some(MemoryCandidate(11)), None, None, None);
    var g3 := g2.(box := Outbox.Empty().(rows := map[21 := row]));
    var speak := Outbox.Speak(21, Outbox.PROACTIVE, 5, Some(MemoryCandidate(11)), 0, 60);
    var report := Outbox.Report(21, true, "", 0);
    assert Outbox.Next(g2.box, speak).rows == map[21 := row];
    assert Outbox.Next(g3.box, report) == Voiced();
    Then(p, [], g0, Remember(11, Fact(RAW)), g1);
    Then(p, [] + [Remember(11, Fact(RAW))], g1, Remember(12, Fact(RAW)), g2);
    run := [] + [Remember(11, Fact(RAW))] + [Remember(12, Fact(RAW))];
    Then(p, run, g2, Deliver(speak), g3);
    Then(p, run + [Deliver(speak)], g3, Deliver(report), g2.(box := Voiced()));
    run := run + [Deliver(speak)] + [Deliver(report)];
  }

  lemma BothEmbedded(window: int) returns (run: seq<Step>)
    ensures Reaches(Configured(window), run, TwoTopics())
  {
    var p := Configured(window);
    run := MemoryVoiced(p);
    var g0 := Graph(map[11 := Fact(RAW), 12 := Fact(RAW)], map[], map[], map[], Voiced());
    var g1 := g0.(memories := map[11 := Fact(ENRICHED), 12 := Fact(RAW)], topics := map[1 := About("a", 11)]);
    var g2 := TwoTopics().(embeddings := map[]);
    var first := EnrichMemory(11, "a", [], None, 1, 0);
    var second := EnrichMemory(12, "b", [1], None, 2, 0);
    var embed := EmbedTopic(2, 0, [1.0], None, 0);
    FirstTopic(p, g0, first, g1);
    Then(p, run, g0, first, g1);
    SecondTopic(p, g1, second, g2);
    Then(p, run + [first], g1, second, g2);
    assert Embed(g2, 2, 0, [1.0]) == TwoTopics();
    Then(p, run + [first] + [second], g2, embed, TwoTopics());
    run := run + [first] + [second] + [embed];
  }

  lemma FirstTopic(p: Policy, g: Graph, step: Step, g': Graph)
    requires p.salienceFloor <= 0.5 && p.lexicalCut == 0.5
    requires g == Graph(map[11 := Fact(RAW), 12 := Fact(RAW)], map[], map[], map[], Voiced())
    requires g' == g.(memories := map[11 := Fact(ENRICHED), 12 := Fact(RAW)], topics := map[1 := About("a", 11)])
    requires step == EnrichMemory(11, "a", [], None, 1, 0)
    ensures Enabled(p, g, step) && Next(p, g, step) == g'
  {
    assert Hottest(g, []) && MostSimilar(p, g, "a", [], None) && FreshTopic(g, 1);
    assert g.memories[11 := Fact(ENRICHED)] == g'.memories;
  }

  lemma SecondTopic(p: Policy, g: Graph, step: Step, g': Graph)
    requires p.salienceFloor <= 0.5 && p.lexicalCut == 0.5 && forall a, b :: p.overlap(a, b) == 0.0
    requires g == Graph(map[11 := Fact(ENRICHED), 12 := Fact(RAW)], map[1 := About("a", 11)], map[], map[], Voiced())
    requires g' == TwoTopics().(embeddings := map[])
    requires step == EnrichMemory(12, "b", [1], None, 2, 0)
    ensures Enabled(p, g, step) && Next(p, g, step) == g'
  {
    assert |g.topics| == 1 && Hottest(g, [1]);
    assert !Similar(p, g, "b", 1);
    assert MostSimilar(p, g, "b", [1], None) && FreshTopic(g, 2);
    assert g.memories[12 := Fact(ENRICHED)] == g'.memories;
  }

  // ---------------------------------------------------------------- the merge of topic 1 into topic 2

  const MERGING := EmbedTopic(1, 0, [1.0], Some(2), 0)

  lemma SameVector()
    ensures Similarity([1.0], [1.0]) == 1.0
  {
    assert Dot([1.0], [1.0]) == 1.0 by { assert [1.0][1..] == []; }
  }

  // Whatever the box holds, the equal vector makes topic 2 the nearest duplicate of topic 1.
  lemma MergeEnabled(window: int, g: Graph)
    requires g == TwoTopics().(box := g.box)
    ensures Enabled(Configured(window), g, MERGING)
    ensures Next(Configured(window), g, MERGING) == Merge(Embed(g, 1, 0, [1.0]), 1, 2, 0)
  {
    var p := Configured(window);
    var g' := Embed(g, 1, 0, [1.0]);
    SameVector();
    assert g'.embeddings == map[1 := Embedding(0, [1.0]), 2 := Embedding(0, [1.0])];
    assert Duplicate(p, g', 1, 2);
    assert Nearest(p, g', 1, Some(2));
  }

  // The exclusion of topic 1 does not reach the survivor.
  lemma MergeForgets(p: Policy)
    requires p.window > 0
    ensures var g, g' := TwoTopics(), Merge(Embed(TwoTopics(), 1, 0, [1.0]), 1, 2, 0);
            && TopicSuppressed(p, g, 1, 0) && g'.topics.Keys == {2} && !TopicSuppressed(p, g', 2, 0)
  {
    var g := Embed(TwoTopics(), 1, 0, [1.0]);
    assert g.topics.Keys == {1, 2};
    MergeRedirects(g, 1, 2, 0);
    SurvivorSuppressed(p, g, 1, 2, 0, 0);
    hide Merge;
    assert MemoryCandidate(11) in g.box.expressed;
    assert !InFlightAbout(g, MemoryCandidate(12)) && !InFlightAbout(g, TopicCandidate(1)) && !InFlightAbout(g, TopicCandidate(2));
  }

  // From the empty store: memory 11 is voiced and delivered, memories 11 and 12 become topics 1 and
  // 2, and the embedding of topic 1 merges it into topic 2. Until the merge topic 1 is excluded from
  // selection because its source was just voiced; the survivor may be voiced again at once.
  lemma ExclusionLost(window: int) returns (run: seq<Step>)
    requires window > 0
    ensures var p := Configured(window);
            && ValidRun(p, Empty(), run) && Enabled(p, Exec(p, Empty(), run), MERGING)
            && var g := Exec(p, Empty(), run);
               var g' := Next(p, g, MERGING);
               && 1 in g.topics && TopicSuppressed(p, g, 1, 0)
               && g'.topics.Keys == {2} && !TopicSuppressed(p, g', 2, 0)
  {
    run := BothEmbedded(window);
    MergeEnabled(window, TwoTopics());
    MergeForgets(Configured(window));
    hide Merge, TopicSuppressed, Enabled, Next;
    assert 1 in TwoTopics().topics;
  }

  // ---------------------------------------------------------------- a report about a dead topic

  function Asked(t: Id): Outbox.Message {
    Outbox.Message(Outbox.PROACTIVE, 7, Outbox.PENDING_DELIVERY, Some(60), Some(TopicCandidate(t)), None, None, None)
  }

  function Ask(m: Id, t: Id): Outbox.Step { Outbox.Speak(m, Outbox.PROACTIVE, 7, Some(TopicCandidate(t)), 0, 60) }

  function AskedOnce(): Outbox.Box { Voiced().(rows := Voiced().rows[31 := Asked(1)]) }

  function AskedTwice(): Outbox.Box {
    Voiced().(rows := Voiced().rows[31 := Asked(1).(status := Outbox.SUPERSEDED, supersededBy := Some(32))][32 := Asked(2)])
  }

  lemma SecondReplacesFirst()
    ensures Outbox.Enabled(Voiced(), Ask(31, 1)) && Outbox.Next(Voiced(), Ask(31, 1)) == AskedOnce()
    ensures Outbox.Enabled(AskedOnce(), Ask(32, 2)) && Outbox.Next(AskedOnce(), Ask(32, 2)) == AskedTwice()
  {
    assert Outbox.Next(Voiced(), Ask(31, 1)).rows == AskedOnce().rows;
    assert Outbox.Next(AskedOnce(), Ask(32, 2)).rows == AskedTwice().rows;
  }

  lemma Superseded(p: Policy, before: seq<Step>) returns (run: seq<Step>)
    requires Reaches(p, before, TwoTopics())
    ensures Reaches(p, run, TwoTopics().(box := AskedTwice()))
  {
    hide Reaches;
    SecondReplacesFirst();
    var g := TwoTopics();
    hide Outbox.Next, Outbox.Enabled, AskedOnce, AskedTwice;
    Then(p, before, g, Deliver(Ask(31, 1)), g.(box := AskedOnce()));
    Then(p, before + [Deliver(Ask(31, 1))], g.(box := AskedOnce()), Deliver(Ask(32, 2)), g.(box := AskedTwice()));
    run := before + [Deliver(Ask(31, 1))] + [Deliver(Ask(32, 2))];
  }

  function Merged(): Graph { Merge(Embed(TwoTopics().(box := AskedTwice()), 1, 0, [1.0]), 1, 2, 0) }

  // An item about topic 1 is replaced by one about topic 2 on the same channel, and topic 1 is
  // merged into topic 2.
  lemma MergesReplaced(window: int) returns (run: seq<Step>)
    ensures Reaches(Configured(window), run, Merged())
  {
    var p := Configured(window);
    run := BothEmbedded(window);
    run := Superseded(p, run);
    var g := TwoTopics().(box := AskedTwice());
    MergeEnabled(window, g);
    hide Merge, Enabled, Next, AskedTwice;
    Then(p, run, g, MERGING, Merged());
    run := run + [MERGING];
  }

  lemma MergedShape()
    ensures var g := Merged(); g.topics.Keys == {2} && g.intents == map[] && 31 in g.box.rows && g.box.rows[31] == AskedTwice().rows[31]
  {
    var g := Embed(TwoTopics().(box := AskedTwice()), 1, 0, [1.0]);
    MergeRedirects(g, 1, 2, 0);
    MergeMoves(g, 1, 2, 0);
    hide Merge;
    assert g.topics.Keys == {1, 2} && !Outbox.InFlight(g.box.rows[31]);
    assert Merged().intents.Keys == {};
  }

  // What a report makes of the replaced row after the merge.
  lemma ReportRevives(p: Policy)
    ensures var g := Next(p, Merged(), Deliver(Outbox.Report(31, false, Outbox.NO_CLIENT, 0)));
            && 31 in g.box.rows && Outbox.InFlight(g.box.rows[31])
            && g.box.rows[31].candidate == Some(TopicCandidate(1)) && 1 !in g.topics
    ensures var g := Next(p, Merged(), Deliver(Outbox.Report(31, true, "", 0)));
            TopicCandidate(1) in g.box.expressed && 1 !in g.topics
  {
    MergedShape();
    hide Merged;
    Outbox.NoClientIsNoDrop();
  }

  // From the empty store: after such a merge the transport reports no_client for the replaced item,
  // and it is in flight again, about a topic that is gone.
  lemma DeadTopicRevived(window: int) returns (run: seq<Step>)
    ensures var p := Configured(window);
            && ValidRun(p, Empty(), run)
            && var g := Exec(p, Empty(), run);
               && 31 in g.box.rows && Outbox.InFlight(g.box.rows[31])
               && g.box.rows[31].candidate == Some(TopicCandidate(1)) && 1 !in g.topics
  {
    var p := Configured(window);
    var report := Deliver(Outbox.Report(31, false, Outbox.NO_CLIENT, 0));
    run := MergesReplaced(window);
    ReportRevives(p);
    hide Merged, Next;
    Then(p, run, Merged(), report, Next(p, Merged(), report));
    run := run + [report];
  }

  // ... or it reports the replaced item delivered, and the dead topic has an expression time.
  lemma DeadTopicVoiced(window: int) returns (run: seq<Step>)
    ensures var p := Configured(window);
            && ValidRun(p, Empty(), run)
            && var g := Exec(p, Empty(), run);
               TopicCandidate(1) in g.box.expressed && 1 !in g.topics
  {
    var p := Configured(window);
    var report := Deliver(Outbox.Report(31, true, "", 0));
    run := MergesReplaced(window);
    ReportRevives(p);
    hide Merged, Next;
    Then(p, run, Merged(), report, Next(p, Merged(), report));
    run := run + [report];
  }

  // ... or a reply proposes an intent on the topic it was shown, which was merged away meanwhile:
  // the intent pends on a topic that is gone, and opens no thread.
  lemma DeadTopicIntended(window: int) returns (run: seq<Step>)
    ensures var p := Configured(window);
            && ValidRun(p, Empty(), run)
            && var g := Exec(p, Empty(), run);
               && g.intents == map[5 := Intent(Some(1), true)] && 1 !in g.topics
               && forall t :: t in g.topics ==> !g.topics[t].unfinished
  {
    var p := Configured(window);
    run := MergesReplaced(window);
    MergedShape();
    NoThreads();
    hide Merged;
    var add := AddIntent(5, Some(1), 0);
    Then(p, run, Merged(), add, Next(p, Merged(), add));
    run := run + [add];
  }

  lemma NoThreads()
    ensures forall t :: t in Merged().topics ==> !Merged().topics[t].unfinished
  {
    MergedShape();
    assert !HasPending(map[], 2);
  }
}
