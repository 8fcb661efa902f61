// What the topic graph keeps through every run, and what a merge carries over.
module TopicLaws {
  import opened Base
  import opened TopicGraph
  import opened Vectors
  import Outbox

  // ---------------------------------------------------------------- counting evidence

  ghost function Evidence(topics: map<Id, Topic>): nat
    decreases |topics|
  {
    if topics == map[] then 0
    else
      var t :| t in topics;
      topics[t].evidence + Evidence(topics - {t})
  }

  lemma {:induction false} EvidenceWithout(topics: map<Id, Topic>, t: Id)
    requires t in topics
    ensures Evidence(topics) == topics[t].evidence + Evidence(topics - {t})
    decreases |topics|
  {
    var u :| u in topics && Evidence(topics) == topics[u].evidence + Evidence(topics - {u});
    if u != t {
      EvidenceWithout(topics - {u}, t);
      EvidenceWithout(topics - {t}, u);
      assert topics - {u} - {t} == topics - {t} - {u};
    }
  }

  lemma EvidenceSet(topics: map<Id, Topic>, t: Id, topic: Topic)
    ensures Evidence(topics[t := topic]) == Evidence(topics - {t}) + topic.evidence
  {
    EvidenceWithout(topics[t := topic], t);
    assert topics[t := topic] - {t} == topics - {t};
  }

  lemma EvidenceSame(topics: map<Id, Topic>, t: Id, topic: Topic)
    requires t in topics && topic.evidence == topics[t].evidence
    ensures Evidence(topics[t := topic]) == Evidence(topics)
  {
    EvidenceSet(topics, t, topic);
    EvidenceWithout(topics, t);
  }

  function Enriched(memories: map<Id, Memory>): set<Id> { set m | m in memories && memories[m].status.ENRICHED? }

  // Every enriched memory is counted by exactly one unit of evidence.
  ghost predicate EvidenceInv(g: Graph) { Evidence(g.topics) == |Enriched(g.memories)| }

  lemma EnrichKeepsEvidence(p: Policy, g: Graph, m: Id, summary: string, similar: Option<Id>, minted: Id, now: int)
    requires EvidenceInv(g) && minted !in g.topics && (similar.Some? ==> similar.value in g.topics)
    ensures EvidenceInv(Enrich(p, g, m, summary, similar, minted, now))
  {
    var g' := Enrich(p, g, m, summary, similar, minted, now);
    if m in g.memories && !g.memories[m].status.ENRICHED? {
      if g.memories[m].salience < p.salienceFloor {
        assert Enriched(g'.memories) == Enriched(g.memories);
      } else {
        assert Enriched(g'.memories) == Enriched(g.memories) + {m};
        var t := if similar.Some? then similar.value else minted;
        EvidenceSet(g.topics, t, g'.topics[t]);
        if similar.Some? { EvidenceWithout(g.topics, t); } else { assert g.topics - {t} == g.topics; }
      }
    }
  }

  lemma MergeKeepsEvidence(g: Graph, t: Id, best: Id, now: int)
    requires EvidenceInv(g) && t in g.topics && best in g.topics && t != best
    ensures EvidenceInv(Merge(g, t, best, now))
  {
    var g' := Merge(g, t, best, now);
    var mid := g.topics[best := g'.topics[best]];
    EvidenceWithout(mid, t);
    EvidenceSet(g.topics, best, g'.topics[best]);
    EvidenceWithout(g.topics, best);
    EvidenceWithout(g.topics - {best}, t);
    assert mid - {t} == g'.topics;
    EvidenceWithout(mid, t);
    EvidenceSet(g.topics - {t}, best, g'.topics[best]);
    assert g'.topics == (g.topics - {t})[best := g'.topics[best]];
    assert g.topics - {t} - {best} == g.topics - {best} - {t};
  }

  lemma MarkKeepsEvidence(g: Graph, t: Option<Id>, unfinished: bool, now: int)
    requires EvidenceInv(g)
    ensures EvidenceInv(Mark(g, t, unfinished, now))
  {
    if t.Some? && t.value in g.topics {
      EvidenceSame(g.topics, t.value, g.topics[t.value].(unfinished := unfinished, activated := now));
    }
  }

  lemma EvidenceNext(p: Policy, g: Graph, step: Step)
    requires EvidenceInv(g) && Enabled(p, g, step)
    ensures EvidenceInv(Next(p, g, step))
  {
    var g' := Next(p, g, step);
    match step
    case EnrichMemory(m, summary, _, similar, minted, now) => EnrichKeepsEvidence(p, g, m, summary, similar, minted, now);
    case AddIntent(i, topic, now) => MarkKeepsEvidence(g.(intents := g.intents[i := Intent(topic, true)]), topic, true, now);
    case EndIntent(i, now) =>
      if i in g.intents {
        MarkKeepsEvidence(g.(intents := g.intents[i := g.intents[i].(pending := false)]), g.intents[i].topic, false, now);
      }
    case AdjustTopic(t, activation, now) =>
      if t in g.topics { EvidenceSame(g.topics, t, g'.topics[t]); }
    case EmbedTopic(t, model, vector, nearest, now) =>
      if t in g.topics && nearest.Some? { MergeKeepsEvidence(Embed(g, t, model, vector), t, nearest.value, now); }
    case _ => assert Enriched(g'.memories) == Enriched(g.memories);
  }

  // ---------------------------------------------------------------- open threads

  // A topic is unfinished exactly when some pending intent points at it.
  ghost predicate ThreadsInv(g: Graph) {
    forall t :: t in g.topics ==> (g.topics[t].unfinished <==> HasPending(g.intents, t))
  }

  lemma RedirectPending(intents: map<Id, Intent>, t: Id, best: Id)
    requires t != best
    ensures HasPending(Redirect(intents, t, best), best) <==> HasPending(intents, t) || HasPending(intents, best)
    ensures forall u :: u != t && u != best ==> (HasPending(Redirect(intents, t, best), u) <==> HasPending(intents, u))
  {
    var after := Redirect(intents, t, best);
    if HasPending(intents, t) {
      var i :| i in intents && intents[i].pending && intents[i].topic == Some(t);
      assert after[i].pending && after[i].topic == Some(best);
    }
    if HasPending(intents, best) {
      var i :| i in intents && intents[i].pending && intents[i].topic == Some(best);
      assert after[i] == intents[i];
    }
    forall u | u != t && u != best ensures HasPending(after, u) <==> HasPending(intents, u) {
      if HasPending(intents, u) {
        var i :| i in intents && intents[i].pending && intents[i].topic == Some(u);
        assert after[i] == intents[i];
      }
    }
  }

  lemma AddPending(intents: map<Id, Intent>, i: Id, t: Option<Id>)
    requires i !in intents
    ensures forall u: Id :: HasPending(intents[i := Intent(t, true)], u) <==> HasPending(intents, u) || t == Some(u)
  {
    var after := intents[i := Intent(t, true)];
    forall u: Id ensures HasPending(after, u) <==> HasPending(intents, u) || t == Some(u) {
      if HasPending(intents, u) {
        var j :| j in intents && intents[j].pending && intents[j].topic == Some(u);
        assert after[j] == intents[j];
      }
      if t == Some(u) { assert after[i].pending && after[i].topic == Some(u); }
    }
  }

  lemma EndPending(intents: map<Id, Intent>, i: Id, u: Id)
    requires i in intents && intents[i].topic != Some(u)
    ensures HasPending(intents[i := intents[i].(pending := false)], u) <==> HasPending(intents, u)
  {
    var after := intents[i := intents[i].(pending := false)];
    if HasPending(intents, u) {
      var j :| j in intents && intents[j].pending && intents[j].topic == Some(u);
      assert after[j] == intents[j];
    }
  }

  lemma EndKeepsThreads(g: Graph, i: Id, now: int)
    requires ThreadsInv(g)
    ensures ThreadsInv(ResolveIntent(g, i, now))
  {
    if i in g.intents {
      var after := g.intents[i := g.intents[i].(pending := false)];
      forall u | u in g.topics && g.intents[i].topic != Some(u) ensures HasPending(after, u) <==> HasPending(g.intents, u) {
        EndPending(g.intents, i, u);
      }
      var u := g.intents[i].topic;
      if u.Some? && u.value in g.topics && HasPending(after, u.value) { EndedTopic(g, i, u.value); }
    }
  }

  // Other steps keep every intent, every flag, and give a fresh topic no intent.
  lemma QuietThreads(p: Policy, g: Graph, step: Step)
    requires ThreadsInv(g) && Enabled(p, g, step) && !step.AddIntent? && !step.EndIntent? && !step.EmbedTopic?
    ensures ThreadsInv(Next(p, g, step))
  {
    var g' := Next(p, g, step);
    assert g'.intents == g.intents;
  }

  lemma ThreadsNext(p: Policy, g: Graph, step: Step)
    requires ThreadsInv(g) && Enabled(p, g, step)
    ensures ThreadsInv(Next(p, g, step))
  {
    match step
    case AddIntent(i, topic, _) => AddPending(g.intents, i, topic);
    case EndIntent(i, now) =>
      hide ThreadsInv;
      EndKeepsThreads(g, i, now);
    case EmbedTopic(t, model, vector, nearest, now) =>
      if t in g.topics && nearest.Some? { RedirectPending(g.intents, t, nearest.value); }
    case _ => QuietThreads(p, g, step);
  }

  // A topic still named by a pending intent after one of its intents ended was open before.
  lemma EndedTopic(g: Graph, i: Id, u: Id)
    requires ThreadsInv(g) && i in g.intents && u in g.topics
    requires HasPending(g.intents[i := g.intents[i].(pending := false)], u)
    ensures g.topics[u].unfinished
  {
    var after := g.intents[i := g.intents[i].(pending := false)];
    var j :| j in after && after[j].pending && after[j].topic == Some(u);
    assert g.intents[j].pending && g.intents[j].topic == Some(u);
  }

  // ---------------------------------------------------------------- identity

  // Embedding rows name live topics, and no two of them are duplicates of each other.
  ghost predicate IdentityInv(p: Policy, g: Graph) {
    && (forall t :: t in g.embeddings ==> t in g.topics)
    && (p.cosineCut > 0.0 ==> forall t, u :: t in g.embeddings && u in g.embeddings && t != u ==> !Duplicate(p, g, t, u))
  }

  // The parts of the graph that `Duplicate` looks at, for two given topics.
  lemma SameIdentity(p: Policy, g: Graph, g': Graph, t: Id, u: Id)
    requires t in g.topics && u in g.topics && t in g.embeddings && u in g.embeddings
    requires t in g'.topics && u in g'.topics && t in g'.embeddings && u in g'.embeddings
    requires g'.topics[t].summary == g.topics[t].summary && g'.topics[u].summary == g.topics[u].summary
    requires g'.embeddings[t] == g.embeddings[t] && g'.embeddings[u] == g.embeddings[u]
    ensures Duplicate(p, g, t, u) <==> Duplicate(p, g', t, u)
  {
  }

  // Every operation but an embedding result keeps each embedding row and each summary.
  lemma IdentityKept(p: Policy, g: Graph, g': Graph)
    requires IdentityInv(p, g) && g'.embeddings == g.embeddings
    requires forall t :: t in g.topics ==> t in g'.topics && g'.topics[t].summary == g.topics[t].summary
    ensures IdentityInv(p, g')
  {
    if p.cosineCut > 0.0 {
      forall t, u | t in g'.embeddings && u in g'.embeddings && t != u ensures !Duplicate(p, g', t, u) {
        SameIdentity(p, g, g', t, u);
      }
    }
  }

  lemma EmbedKeepsIdentity(p: Policy, g: Graph, t: Id, model: Id, vector: Vector)
    requires SymmetricCosine(p) && IdentityInv(p, g) && t in g.topics
    requires Nearest(p, Embed(g, t, model, vector), t, None)
    ensures IdentityInv(p, Embed(g, t, model, vector))
  {
    var g' := Embed(g, t, model, vector);
    if p.cosineCut > 0.0 {
      forall a, b | a in g'.embeddings && b in g'.embeddings && a != b ensures !Duplicate(p, g', a, b) {
        if a == t {
          assert !Duplicate(p, g', t, b);
        } else if b == t {
          assert !Duplicate(p, g', t, a);
          assert p.cosine(g'.embeddings[a].vector, g'.embeddings[t].vector) == p.cosine(g'.embeddings[t].vector, g'.embeddings[a].vector);
        } else {
          SameIdentity(p, g, g', a, b);
        }
      }
    }
  }

  // After a merge the rows left are rows from before, so nothing new can be a duplicate.
  lemma MergeKeepsIdentity(p: Policy, g: Graph, t: Id, model: Id, vector: Vector, best: Id, now: int)
    requires IdentityInv(p, g) && t in g.topics && best in g.topics && t != best
    ensures IdentityInv(p, Merge(Embed(g, t, model, vector), t, best, now))
  {
    var g' := Merge(Embed(g, t, model, vector), t, best, now);
    assert g'.embeddings == g.embeddings - {t};
    if p.cosineCut > 0.0 {
      forall a, b | a in g'.embeddings && b in g'.embeddings && a != b ensures !Duplicate(p, g', a, b) {
        SameIdentity(p, g, g', a, b);
      }
    }
  }

  lemma IdentityNext(p: Policy, g: Graph, step: Step)
    requires SymmetricCosine(p) && IdentityInv(p, g) && Enabled(p, g, step)
    ensures IdentityInv(p, Next(p, g, step))
  {
    hide IdentityInv, SymmetricCosine;
    if step.EmbedTopic? {
      hide Merge;
      if step.t in g.topics {
        if step.nearest.None? {
          EmbedKeepsIdentity(p, g, step.t, step.model, step.vector);
        } else {
          MergeKeepsIdentity(p, g, step.t, step.model, step.vector, step.nearest.value, step.now);
        }
      }
    } else {
      KeepsSummaries(p, g, step);
      hide Next, Enabled;
      IdentityKept(p, g, Next(p, g, step));
    }
  }

  lemma KeepsSummaries(p: Policy, g: Graph, step: Step)
    requires Enabled(p, g, step) && !step.EmbedTopic?
    ensures var g' := Next(p, g, step);
            && g'.embeddings == g.embeddings
            && forall t :: t in g.topics ==> t in g'.topics && g'.topics[t].summary == g.topics[t].summary
  {
    hide MostSimilar, Hottest, HasPending, Outbox.Next, Outbox.Enabled;
  }

  // ---------------------------------------------------------------- enrichment attempts

  // A memory that may still be enriched has attempts left: a claim given back for the last time
  // is never claimed again.
  ghost predicate AttemptsInv(p: Policy, g: Graph) {
    forall m :: m in g.memories ==>
      var memory := g.memories[m];
      && (memory.status.RAW? || memory.status.PENDING_ENRICHMENT? ==> memory.attempts == 0 || memory.attempts < p.maxAttempts)
      && memory.attempts <= if p.maxAttempts > 1 then p.maxAttempts else 1
  }

  lemma EnrichKeepsAttempts(p: Policy, g: Graph, m: Id, summary: string, similar: Option<Id>, minted: Id, now: int)
    requires AttemptsInv(p, g) && (similar.Some? ==> similar.value in g.topics)
    ensures var g' := Enrich(p, g, m, summary, similar, minted, now);
            AttemptsInv(p, g') && Enriched(g.memories) <= Enriched(g'.memories)
  {
  }

  lemma ClaimKeepsAttempts(p: Policy, g: Graph, m: Id)
    requires AttemptsInv(p, g)
    ensures AttemptsInv(p, Claim(p, g, m)) && Enriched(g.memories) <= Enriched(Claim(p, g, m).memories)
  {
  }

  lemma ReleaseKeepsAttempts(p: Policy, g: Graph, m: Id)
    requires AttemptsInv(p, g)
    ensures AttemptsInv(p, Release(p, g, m)) && Enriched(g.memories) <= Enriched(Release(p, g, m).memories)
  {
  }

  lemma OthersKeepMemories(p: Policy, g: Graph, step: Step)
    requires Enabled(p, g, step)
    requires !step.Remember? && !step.ClaimMemory? && !step.ReleaseMemory? && !step.EnrichMemory?
    ensures Next(p, g, step).memories == g.memories
  {
  }

  lemma AttemptsNext(p: Policy, g: Graph, step: Step)
    requires AttemptsInv(p, g) && Enabled(p, g, step)
    ensures AttemptsInv(p, Next(p, g, step))
    ensures Enriched(g.memories) <= Enriched(Next(p, g, step).memories)
  {
    hide Enrich, Claim, Release, Merge, Mark;
    match step
    case Remember(_, _) =>
    case ClaimMemory(m) => ClaimKeepsAttempts(p, g, m);
    case ReleaseMemory(m) => ReleaseKeepsAttempts(p, g, m);
    case EnrichMemory(m, summary, _, similar, minted, now) => EnrichKeepsAttempts(p, g, m, summary, similar, minted, now);
    case _ => OthersKeepMemories(p, g, step);
  }

  // ---------------------------------------------------------------- every run

  ghost predicate Inv(p: Policy, g: Graph) { EvidenceInv(g) && ThreadsInv(g) && IdentityInv(p, g) && AttemptsInv(p, g) }

  // However topics are enriched, reinforced, embedded, merged and their intents opened and closed:
  // evidence counts enriched memories, open threads are the topics with a pending intent, and no
  // two embedded topics of one model are duplicates; an enriched memory stays enriched.
  lemma {:induction false} InvRun(p: Policy, g: Graph, run: seq<Step>)
    requires SymmetricCosine(p) && Inv(p, g) && ValidRun(p, g, run)
    ensures Inv(p, Exec(p, g, run)) && Enriched(g.memories) <= Enriched(Exec(p, g, run).memories)
    decreases |run|
  {
    hide Next, Enabled, EvidenceInv, ThreadsInv, IdentityInv, AttemptsInv, Enriched;
    if run != [] {
      AttemptsNext(p, g, run[0]);
      EvidenceNext(p, g, run[0]);
      ThreadsNext(p, g, run[0]);
      IdentityNext(p, g, run[0]);
      InvRun(p, Next(p, g, run[0]), run[1..]);
    }
  }

  lemma EmptyInv(p: Policy)
    ensures Inv(p, Empty())
  {
    assert Enriched(map[]) == {};
  }

  // With the cosine of the program, all of it holds of whatever the empty store becomes.
  lemma FromEmpty(p: Policy, run: seq<Step>)
    requires p.cosine == Similarity && ValidRun(p, Empty(), run)
    ensures Inv(p, Exec(p, Empty(), run))
  {
    ExactCosine(p);
    EmptyInv(p);
    InvRun(p, Empty(), run);
  }
}
