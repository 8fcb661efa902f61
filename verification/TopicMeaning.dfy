// What the operations on topics mean, in the terms of a reader of the tables: which topic an
// enrichment reinforces, which one an embedding merges into and what the survivor is, what
// importance stands for over runs, and how long a voiced topic stays out of selection.
module TopicMeaning {
  import opened Base
  import opened Vectors
  import opened TopicGraph
  import opened TopicLaws
  import opened TopicMerge
  import Outbox

  // The greater of two numbers, as a reader would check it.
  predicate Greater(x: real, a: real, b: real) { x >= a && x >= b && (x == a || x == b) }

  // ---------------------------------------------------------------- enrichment

  // Worded alike beyond the cut, and neither negates the other.
  predicate Alike(p: Policy, summary: string, t: Topic) {
    p.lexicalCut > 0.0 && p.overlap(summary, t.summary) >= p.lexicalCut && p.negated(summary) == p.negated(t.summary)
  }

  // Topic t' is t reinforced by the memory.
  predicate Reinforced(t: Topic, t': Topic, memory: Memory, now: int) {
    && Greater(t'.activation, t.activation, memory.activation) && Greater(t'.importance, t.importance, memory.salience)
    && t' == t.(activation := t'.activation, importance := t'.importance, evidence := t.evidence + 1, activated := now)
  }

  // An enriched memory of enough salience reinforces the topic of the fifty most recently active
  // that is worded most like it, the first of equals, if one is alike at all; else it becomes a new
  // topic. A memory of too little salience is only turned down, and one already enriched ignored.
  lemma EnrichMeans(p: Policy, g: Graph, step: Step)
    requires Enabled(p, g, step) && step.EnrichMemory?
    ensures var g', m := Next(p, g, step), step.m;
            if m !in g.memories || g.memories[m].status == ENRICHED then g' == g
            else if g.memories[m].salience < p.salienceFloor then
              g' == g.(memories := g.memories[m := g.memories[m].(status := DO_NOT_ENRICH)])
            else
              var memory := g.memories[m];
              && g' == g.(memories := g.memories[m := memory.(status := ENRICHED)], topics := g'.topics)
              && match step.similar
                 case None =>
                   && (forall t :: t in step.scan ==> !Alike(p, step.summary, g.topics[t]))
                   && g'.topics == g.topics[step.minted := Topic(step.summary, memory.activation, memory.salience, false, 1, Some(m), step.now)]
                 case Some(t) =>
                   && t in step.scan && Alike(p, step.summary, g.topics[t])
                   && (forall u :: u in step.scan && Alike(p, step.summary, g.topics[u]) ==>
                         p.overlap(step.summary, g.topics[u].summary) <= p.overlap(step.summary, g.topics[t].summary))
                   && g'.topics.Keys == g.topics.Keys && Reinforced(g.topics[t], g'.topics[t], memory, step.now)
                   && (forall u :: u in g.topics && u != t ==> g'.topics[u] == g.topics[u])
  {
  }

  // The scan: all topics up to fifty, and past that the fifty most recently active.
  lemma ScanMeans(p: Policy, g: Graph, step: Step, t: Id)
    requires Enabled(p, g, step) && step.EnrichMemory? && t in g.topics && t !in step.scan
    ensures |step.scan| == 50 && forall u :: u in step.scan ==> g.topics[u].activated >= g.topics[t].activated
  {
    if |g.topics| < SCAN {
      ScanSize(step.scan, g.topics.Keys, t);
    }
  }

  lemma {:induction false} ScanSize(scan: seq<Id>, keys: set<Id>, t: Id)
    requires Distinct(scan) && (forall u :: u in scan ==> u in keys) && t in keys && t !in scan
    ensures |scan| < |keys|
  {
    if scan != [] {
      var n := |scan| - 1;
      ScanSize(scan[..n], keys - {scan[n]}, t);
      assert |keys - {scan[n]}| == |keys| - 1;
    }
  }

  // ---------------------------------------------------------------- embedding and merging

  // Embedded under the same model, at least as similar as the cut, and neither negates the other.
  predicate Same(p: Policy, g: Graph, a: Id, b: Id)
    requires a in g.topics && b in g.topics && a in g.embeddings && b in g.embeddings
  {
    && p.cosineCut > 0.0 && g.embeddings[a].model == g.embeddings[b].model
    && p.cosine(g.embeddings[a].vector, g.embeddings[b].vector) >= p.cosineCut
    && p.negated(g.topics[a].summary) == p.negated(g.topics[b].summary)
  }

  // An embedding is stored; the topic is merged into another exactly when one is the same, and then
  // into one that none of the others is more similar than.
  lemma EmbedMeans(p: Policy, g: Graph, step: Step)
    requires IdentityInv(p, g) && Enabled(p, g, step) && step.EmbedTopic? && step.t in g.topics
    ensures var t, mid, g' := step.t, g.(embeddings := g.embeddings[step.t := Embedding(step.model, step.vector)]), Next(p, g, step);
            match step.nearest
            case None =>
              g' == mid && forall u :: u in g.embeddings && u != t ==> !Same(p, mid, t, u)
            case Some(best) =>
              && best != t && best in g.embeddings && Same(p, mid, t, best) && t !in g'.topics && best in g'.topics
              && forall u :: u in g.embeddings && u != t && Same(p, mid, t, u) ==>
                   p.cosine(step.vector, g.embeddings[u].vector) <= p.cosine(step.vector, g.embeddings[best].vector)
  {
    hide Merge;
    if step.nearest.Some? { MergeRedirects(Embed(g, step.t, step.model, step.vector), step.t, step.nearest.value, step.now); }
  }

  // The survivor of a merge: the greater activation and importance, the evidence of both, the source
  // of its own if it has one, open if it or the dead topic was, and active now.
  lemma SurvivorMeans(g: Graph, t: Id, best: Id, now: int)
    requires ThreadsInv(g) && t in g.topics && best in g.topics && t != best
    ensures var g' := Merge(g, t, best, now);
            best in g'.topics
            && var a, b, s := g.topics[t], g.topics[best], g'.topics[best];
               && Greater(s.activation, a.activation, b.activation) && Greater(s.importance, a.importance, b.importance)
               && s.evidence == a.evidence + b.evidence && s.unfinished == (a.unfinished || b.unfinished)
               && s.source == (if b.source.Some? then b.source else a.source) && s.activated == now && s.summary == b.summary
  {
    RedirectPending(g.intents, t, best);
  }

  // Over every run, with the cosine of the program: no two topics embedded under one model are the
  // same, and a topic is an open thread exactly when some pending intent is about it.
  lemma GraphMeans(p: Policy, run: seq<Step>)
    requires p.cosine == Similarity && ValidRun(p, Empty(), run)
    ensures var g := Exec(p, Empty(), run);
            && (forall t :: t in g.embeddings ==> t in g.topics)
            && (forall t, u :: t in g.embeddings && u in g.embeddings && t != u ==> !Same(p, g, t, u))
            && (forall t :: t in g.topics ==>
                  (g.topics[t].unfinished <==> exists i :: i in g.intents && g.intents[i].pending && g.intents[i].topic == Some(t)))
  {
    FromEmpty(p, run);
    hide Exec, EvidenceInv, AttemptsInv;
  }

  // When a step happens, for those that may change a topic.
  function TimeOf(step: Step): Option<int> {
    match step
    case EnrichMemory(_, _, _, _, _, now) => Some(now)
    case AdjustTopic(_, _, now) => Some(now)
    case AddIntent(_, _, now) => Some(now)
    case EndIntent(_, now) => Some(now)
    case EmbedTopic(_, _, _, _, now) => Some(now)
    case _ => None
  }

  // Whatever changes a topic stamps it with the time of the change: a topic comes out of a step as it
  // went in, or is stamped with the time of that step.
  lemma StampNext(p: Policy, g: Graph, step: Step)
    requires Enabled(p, g, step)
    ensures var g' := Next(p, g, step);
            forall t :: t in g'.topics ==>
              (t in g.topics && g'.topics[t] == g.topics[t]) || TimeOf(step) == Some(g'.topics[t].activated)
  {
  }

  // Over a run: each topic is as it was at the start, or as the last step that changed it left it.
  lemma {:induction false} StampRun(p: Policy, g: Graph, run: seq<Step>, t: Id)
    requires ValidRun(p, g, run) && t in Exec(p, g, run).topics
    ensures var t' := Exec(p, g, run).topics[t];
            || (t in g.topics && t' == g.topics[t])
            || exists i :: 0 <= i < |run| && TimeOf(run[i]) == Some(t'.activated)
    decreases |run|
  {
    if run != [] {
      var g' := Next(p, g, run[0]);
      var last := Exec(p, g', run[1..]).topics[t].activated;
      StampNext(p, g, run[0]);
      StampRun(p, g', run[1..], t);
      hide Enabled, Next;
      if i :| 0 <= i < |run[1..]| && TimeOf(run[1..][i]) == Some(last) { assert TimeOf(run[i + 1]) == Some(last); }
      assert TimeOf(run[0]) == Some(last) ==> exists i :: 0 <= i < |run| && TimeOf(run[i]) == Some(last);
    }
  }

  // ---------------------------------------------------------------- what importance stands for

  ghost predicate Outweighed(topics: map<Id, Topic>, x: real) { exists t :: t in topics && topics[t].importance >= x }

  ghost predicate Weighing(topics: map<Id, Topic>, x: real) { exists t :: t in topics && topics[t].importance == x }

  ghost predicate Salient(memories: map<Id, Memory>, x: real) {
    exists m :: m in memories && memories[m].status == ENRICHED && memories[m].salience == x
  }

  // Every enriched memory weighs on some topic, and no topic weighs more than its memories did.
  ghost predicate Weighed(g: Graph) {
    && (forall m :: m in g.memories && g.memories[m].status == ENRICHED ==> Outweighed(g.topics, g.memories[m].salience))
    && (forall t :: t in g.topics ==> Salient(g.memories, g.topics[t].importance))
  }

  // The importance of each topic passes to one at least as important, and none is new.
  ghost predicate Carried(topics: map<Id, Topic>, topics': map<Id, Topic>) {
    && (forall t :: t in topics ==> Outweighed(topics', topics[t].importance))
    && (forall t :: t in topics' ==> Weighing(topics, topics'[t].importance))
  }

  // The enriched memories stay the same.
  ghost predicate SameEnriched(a: map<Id, Memory>, b: map<Id, Memory>) {
    && (forall m :: m in a && a[m].status == ENRICHED ==> m in b && b[m] == a[m])
    && (forall m :: m in b && b[m].status == ENRICHED ==> m in a && a[m].status == ENRICHED)
  }

  lemma CarryWeight(topics: map<Id, Topic>, topics': map<Id, Topic>, x: real)
    requires Carried(topics, topics') && Outweighed(topics, x)
    ensures Outweighed(topics', x)
  {
    var t :| t in topics && topics[t].importance >= x;
    var u :| u in topics' && topics'[u].importance >= topics[t].importance;
  }

  lemma CarriedWeighs(g: Graph, g': Graph)
    requires Weighed(g) && Carried(g.topics, g'.topics) && SameEnriched(g.memories, g'.memories)
    ensures Weighed(g')
  {
    hide Outweighed, Salient, Weighing;
    forall m | m in g'.memories && g'.memories[m].status == ENRICHED ensures Outweighed(g'.topics, g'.memories[m].salience) {
      CarryWeight(g.topics, g'.topics, g.memories[m].salience);
    }
    forall u | u in g'.topics ensures Salient(g'.memories, g'.topics[u].importance) {
      CarrySalience(g.topics, g.memories, g'.memories, g'.topics[u].importance);
    }
  }

  lemma CarrySalience(topics: map<Id, Topic>, a: map<Id, Memory>, b: map<Id, Memory>, x: real)
    requires Weighing(topics, x) && SameEnriched(a, b) && forall t :: t in topics ==> Salient(a, topics[t].importance)
    ensures Salient(b, x)
  {
    var t :| t in topics && topics[t].importance == x;
    hide Weighing, Salient;
    StillSalient(a, b, topics[t].importance);
  }

  lemma Outweighs(topics: map<Id, Topic>, t: Id, x: real)
    requires t in topics && topics[t].importance >= x
    ensures Outweighed(topics, x)
  {
  }

  lemma Weighs(topics: map<Id, Topic>, t: Id)
    requires t in topics
    ensures Weighing(topics, topics[t].importance)
  {
  }

  lemma StillSalient(a: map<Id, Memory>, b: map<Id, Memory>, x: real)
    requires Salient(a, x) && SameEnriched(a, b)
    ensures Salient(b, x)
  {
    var m :| m in a && a[m].status == ENRICHED && a[m].salience == x;
    assert b[m] == a[m];
  }

  // Enrichment: one memory more, which weighs on the topic it reinforces or becomes.
  lemma EnrichedWeighs(g: Graph, g': Graph, m: Id, t: Id)
    requires Weighed(g) && m in g.memories && g.memories[m].status != ENRICHED
    requires g'.memories == g.memories[m := g.memories[m].(status := ENRICHED)]
    requires t in g'.topics && (t in g.topics ==> Greater(g'.topics[t].importance, g.topics[t].importance, g.memories[m].salience))
    requires t !in g.topics ==> g'.topics[t].importance == g.memories[m].salience
    requires g'.topics == g.topics[t := g'.topics[t]]
    ensures Weighed(g')
  {
    forall n | n in g'.memories && g'.memories[n].status == ENRICHED ensures Outweighed(g'.topics, g'.memories[n].salience) {
      if n != m { MoreWeight(g.topics, g'.topics, t, g.memories[n].salience); }
    }
    forall u | u in g'.topics ensures Salient(g'.memories, g'.topics[u].importance) {
      if u in g.topics && g'.topics[u].importance == g.topics[u].importance {
        MoreSalient(g.memories, g'.memories, m, g.topics[u].importance);
      } else {
        assert g'.memories[m].salience == g'.topics[u].importance;
      }
    }
  }

  lemma MoreWeight(topics: map<Id, Topic>, topics': map<Id, Topic>, t: Id, x: real)
    requires Outweighed(topics, x) && t in topics' && topics' == topics[t := topics'[t]]
    requires t in topics ==> topics'[t].importance >= topics[t].importance
    ensures Outweighed(topics', x)
  {
    var u :| u in topics && topics[u].importance >= x;
    assert u in topics' && topics'[u].importance >= x;
  }

  lemma MoreSalient(a: map<Id, Memory>, b: map<Id, Memory>, m: Id, x: real)
    requires Salient(a, x) && m in a && a[m].status != ENRICHED && b == a[m := a[m].(status := ENRICHED)]
    ensures Salient(b, x)
  {
    var n :| n in a && a[n].status == ENRICHED && a[n].salience == x;
    assert b[n] == a[n];
  }

  // What an enrichment amounts to: nothing, a memory turned down, or one topic made or reinforced.
  lemma EnrichShape(p: Policy, g: Graph, step: Step) returns (t: Id)
    requires Enabled(p, g, step) && step.EnrichMemory?
    ensures var g', m := Next(p, g, step), step.m;
            || g' == g
            || (g'.topics == g.topics && SameEnriched(g.memories, g'.memories))
            || (&& m in g.memories && g.memories[m].status != ENRICHED
                && g'.memories == g.memories[m := g.memories[m].(status := ENRICHED)]
                && t in g'.topics && g'.topics == g.topics[t := g'.topics[t]]
                && (t in g.topics ==> Greater(g'.topics[t].importance, g.topics[t].importance, g.memories[m].salience))
                && (t !in g.topics ==> g'.topics[t].importance == g.memories[m].salience))
  {
    EnrichMeans(p, g, step);
    assert step.minted !in g.topics && (step.similar.Some? ==> step.similar.value in g.topics);
    t := if step.similar.Some? then step.similar.value else step.minted;
    var g', m := Next(p, g, step), step.m;
    hide Next, Enabled;
    if m in g.memories && g.memories[m].status != ENRICHED && g.memories[m].salience >= p.salienceFloor {
      assert g'.topics == g.topics[t := g'.topics[t]];
    }
  }

  lemma EnrichWeighs(p: Policy, g: Graph, step: Step)
    requires Weighed(g) && Enabled(p, g, step) && step.EnrichMemory?
    ensures Weighed(Next(p, g, step))
  {
    var t := EnrichShape(p, g, step);
    var g' := Next(p, g, step);
    hide Next, Enabled, Weighed, Carried;
    if g'.topics == g.topics && SameEnriched(g.memories, g'.memories) {
      SameTopics(g.topics, g'.topics);
      CarriedWeighs(g, g');
    } else if g' != g {
      EnrichedWeighs(g, g', step.m, t);
    }
  }

  lemma SameTopics(topics: map<Id, Topic>, topics': map<Id, Topic>)
    requires topics'.Keys == topics.Keys && forall t :: t in topics ==> topics'[t].importance == topics[t].importance
    ensures Carried(topics, topics')
  {
    hide Outweighed, Weighing;
    forall t | t in topics ensures Outweighed(topics', topics[t].importance) && Weighing(topics, topics'[t].importance) {
      Outweighs(topics', t, topics[t].importance);
      Weighs(topics, t);
    }
  }

  lemma MergeCarries(topics: map<Id, Topic>, topics': map<Id, Topic>, t: Id, best: Id)
    requires t in topics && best in topics && t != best && topics'.Keys == topics.Keys - {t}
    requires Greater(topics'[best].importance, topics[t].importance, topics[best].importance)
    requires forall u :: u in topics && u != t && u != best ==> topics'[u] == topics[u]
    ensures Carried(topics, topics')
  {
    hide Outweighed, Weighing;
    forall u | u in topics ensures Outweighed(topics', topics[u].importance) {
      Outweighs(topics', if u == t then best else u, topics[u].importance);
    }
    forall v | v in topics' ensures Weighing(topics, topics'[v].importance) {
      Weighs(topics, if v == best && topics'[best].importance != topics[best].importance then t else v);
    }
  }

  // Steps that neither enrich nor merge keep the importance of every topic.
  lemma SameImportance(p: Policy, g: Graph, step: Step)
    requires Enabled(p, g, step) && !step.EnrichMemory? && !step.EmbedTopic?
    ensures var topics, topics' := g.topics, Next(p, g, step).topics;
            topics'.Keys == topics.Keys && forall t :: t in topics ==> topics'[t].importance == topics[t].importance
  {
    hide HasPending, Outbox.Next, Outbox.Enabled;
  }

  lemma KeepsEnriched(p: Policy, g: Graph, step: Step)
    requires Enabled(p, g, step) && !step.EnrichMemory? && !step.EmbedTopic?
    ensures SameEnriched(g.memories, Next(p, g, step).memories)
  {
    hide HasPending, Outbox.Next, Outbox.Enabled;
  }

  lemma WeighedNext(p: Policy, g: Graph, step: Step)
    requires Weighed(g) && ThreadsInv(g) && Enabled(p, g, step)
    ensures Weighed(Next(p, g, step))
  {
    if step.EnrichMemory? {
      EnrichWeighs(p, g, step);
    } else if step.EmbedTopic? {
      EmbedWeighs(p, g, step);
    } else {
      SameImportance(p, g, step);
      KeepsEnriched(p, g, step);
      hide *;
      SameTopics(g.topics, Next(p, g, step).topics);
      CarriedWeighs(g, Next(p, g, step));
    }
  }

  lemma EmbedWeighs(p: Policy, g: Graph, step: Step)
    requires Weighed(g) && ThreadsInv(g) && Enabled(p, g, step) && step.EmbedTopic?
    ensures Weighed(Next(p, g, step))
  {
    hide Outweighed, Salient, Weighing;
    var t, mid := step.t, Embed(g, step.t, step.model, step.vector);
    assert mid.topics == g.topics && mid.memories == g.memories && mid.intents == g.intents;
    assert Weighed(mid) && ThreadsInv(mid);
    if t in g.topics && step.nearest.Some? {
      var best, merged := step.nearest.value, Merge(mid, t, step.nearest.value, step.now);
      SurvivorMeans(mid, t, best, step.now);
      MergeRedirects(mid, t, best, step.now);
      hide Merge, Embed, ThreadsInv, Weighed, Carried;
      MergeCarries(mid.topics, merged.topics, t, best);
      assert SameEnriched(mid.memories, merged.memories);
      CarriedWeighs(mid, merged);
    }
  }

  lemma {:induction false} WeighedRun(p: Policy, g: Graph, run: seq<Step>)
    requires Weighed(g) && ThreadsInv(g) && ValidRun(p, g, run)
    ensures Weighed(Exec(p, g, run))
    decreases |run|
  {
    hide Weighed, ThreadsInv, Next, Enabled;
    if run != [] {
      WeighedNext(p, g, run[0]);
      ThreadsNext(p, g, run[0]);
      WeighedRun(p, Next(p, g, run[0]), run[1..]);
    }
  }

  // From an empty store, through enrichments, reinforcements and merges: each enriched memory is
  // outweighed by some topic, and each topic weighs as much as some enriched memory.
  lemma ImportanceMeans(p: Policy, run: seq<Step>)
    requires ValidRun(p, Empty(), run)
    ensures Weighed(Exec(p, Empty(), run))
  {
    WeighedRun(p, Empty(), run);
  }

  // ---------------------------------------------------------------- exclusion after delivery

  // A candidate delivered at some time and no longer in flight stays out of selection for exactly
  // the window after it.
  lemma ExcludedFor(p: Policy, g: Graph, c: Outbox.Candidate, now: int)
    requires c in g.box.expressed && !InFlightAbout(g, c)
    ensures Suppressed(p, g, c, now) <==> p.window > 0 && now < g.box.expressed[c] + p.window
  {
  }

  // A candidate never delivered is out exactly while an item about it is pending or under delivery.
  lemma ExcludedInFlight(p: Policy, g: Graph, c: Outbox.Candidate, now: int)
    requires c !in g.box.expressed
    ensures Suppressed(p, g, c, now) <==>
              exists m :: m in g.box.rows && g.box.rows[m].kind == Outbox.PROACTIVE && g.box.rows[m].candidate == Some(c)
                          && g.box.rows[m].status in {Outbox.PENDING_DELIVERY, Outbox.DELIVERING}
  {
    if m :| m in g.box.rows && Outbox.InFlight(g.box.rows[m]) && g.box.rows[m].candidate == Some(c) {
      assert g.box.rows[m].status in {Outbox.PENDING_DELIVERY, Outbox.DELIVERING};
    }
    if m :| m in g.box.rows && g.box.rows[m].kind == Outbox.PROACTIVE && g.box.rows[m].candidate == Some(c)
            && g.box.rows[m].status in {Outbox.PENDING_DELIVERY, Outbox.DELIVERING} {
      assert Outbox.InFlight(g.box.rows[m]);
    }
  }

  // A topic is out exactly when it is, or the memory it comes from is.
  lemma ExcludedBySource(p: Policy, g: Graph, t: Id, now: int)
    requires t in g.topics
    ensures TopicSuppressed(p, g, t, now) <==>
              (|| Suppressed(p, g, Outbox.Candidate(Outbox.TOPIC, t), now)
               || exists m :: g.topics[t].source == Some(m) && Suppressed(p, g, Outbox.Candidate(Outbox.PROVISIONAL_MEMORY, m), now))
  {
    hide Suppressed;
  }
}
