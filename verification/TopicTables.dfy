// The topic tables, updated in place: the scans are loops that keep the best match so far, and
// each method is the operation of `TopicGraph` it names.
module TopicTables {
  import opened Base
  import opened Vectors
  import opened TopicGraph
  import Outbox

  class Tables {
    const policy: Policy
    var memories: map<Id, Memory>
    var topics: map<Id, Topic>
    var embeddings: map<Id, Embedding>
    var intents: map<Id, Intent>
    var rows: map<Id, Outbox.Message>
    var turns: seq<Id>
    var recent: nat
    var expressed: map<Outbox.Candidate, int>
    var attempts: seq<Outbox.Attempt>
    var lastDelivered: Option<int>

    ghost function Value(): Graph
      reads this
    {
      Graph(memories, topics, embeddings, intents, Outbox.Box(rows, turns, recent, expressed, attempts, lastDelivered))
    }

    constructor (policy: Policy)
      ensures Value() == Empty() && this.policy == policy
    {
      this.policy := policy;
      memories, topics, embeddings, intents := map[], map[], map[], map[];
      rows, turns, recent, expressed, attempts, lastDelivered := map[], [], 0, map[], [], None;
    }

    // ---------------------------------------------------------------- enrichment

    // The lexical scan: a later topic replaces the best one only when it scores strictly higher.
    method FindSimilarTopic(summary: string, scan: seq<Id>) returns (best: Option<Id>)
      requires Hottest(Value(), scan)
      ensures MostSimilar(policy, Value(), summary, scan, best)
    {
      best := None;
      if policy.lexicalCut <= 0.0 { return; }
      var most := 0.0;
      ghost var at := 0;
      for i := 0 to |scan|
        invariant best.None? ==> most == 0.0 && forall j :: 0 <= j < i ==> !Similar(policy, Value(), summary, scan[j])
        invariant best.Some? ==>
                    && at < i && scan[at] == best.value && Similar(policy, Value(), summary, best.value)
                    && most == policy.overlap(summary, topics[best.value].summary)
                    && (forall j :: 0 <= j < i && Similar(policy, Value(), summary, scan[j]) ==>
                          && policy.overlap(summary, topics[scan[j]].summary) <= most
                          && (j < at ==> policy.overlap(summary, topics[scan[j]].summary) < most))
      {
        var t := scan[i];
        var score := policy.overlap(summary, topics[t].summary);
        if score < policy.lexicalCut || score <= most { continue; }
        if Conflict(policy, summary, topics[t].summary) { continue; }
        best, most, at := Some(t), score, i;
      }
    }

    method EnrichMemory(m: Id, summary: string, scan: seq<Id>, minted: Id, now: int) returns (ghost similar: Option<Id>)
      requires Hottest(Value(), scan) && FreshTopic(Value(), minted)
      modifies `memories, `topics
      ensures Enabled(policy, old(Value()), Step.EnrichMemory(m, summary, scan, similar, minted, now))
      ensures Value() == Next(policy, old(Value()), Step.EnrichMemory(m, summary, scan, similar, minted, now))
    {
      var existing := FindSimilarTopic(summary, scan);
      similar := existing;
      if m !in memories { return; }
      var memory := memories[m];
      if memory.status == ENRICHED { return; }
      if memory.salience < policy.salienceFloor {
        memories := memories[m := memory.(status := DO_NOT_ENRICH)];
        return;
      }
      memories := memories[m := memory.(status := ENRICHED)];
      if existing.Some? {
        var t := topics[existing.value];
        topics := topics[existing.value := t.(activation := Max(t.activation, memory.activation),
                                              importance := Max(t.importance, memory.salience),
                                              evidence := t.evidence + 1, activated := now)];
        return;
      }
      topics := topics[minted := Topic(summary, memory.activation, memory.salience, false, 1, Some(m), now)];
    }

    // A wake claims a memory worth enriching; the result of its cycle gives an unused claim back.
    method ClaimEnrichment(m: Id)
      modifies `memories
      ensures Value() == Next(policy, old(Value()), ClaimMemory(m))
    {
      if m in memories && memories[m].status == RAW && memories[m].salience >= policy.salienceFloor {
        memories := memories[m := memories[m].(status := PENDING_ENRICHMENT)];
      }
    }

    method ReleaseClaim(m: Id)
      modifies `memories
      ensures Value() == Next(policy, old(Value()), ReleaseMemory(m))
    {
      if m !in memories || memories[m].status != PENDING_ENRICHMENT { return; }
      var attempts := memories[m].attempts + 1;
      var status := if attempts >= policy.maxAttempts then DO_NOT_ENRICH else RAW;
      memories := memories[m := memories[m].(status := status, attempts := attempts)];
    }

    // ---------------------------------------------------------------- intents

    method MarkTopicUnfinished(t: Option<Id>, unfinished: bool, now: int)
      modifies `topics
      ensures Value() == Mark(old(Value()), t, unfinished, now)
    {
      if t.None? || t.value !in topics { return; }
      var topic := topics[t.value];
      if topic.unfinished != unfinished {
        topics := topics[t.value := topic.(unfinished := unfinished, activated := now)];
      }
    }

    method CreateIntent(i: Id, t: Option<Id>, now: int)
      requires i !in intents
      modifies `intents, `topics
      ensures Value() == Next(policy, old(Value()), AddIntent(i, t, now))
    {
      intents := intents[i := Intent(t, true)];
      MarkTopicUnfinished(t, true, now);
    }

    method HasPendingIntent(t: Id, excluded: Id) returns (found: bool)
      ensures found <==> exists i :: i in intents && i != excluded && intents[i].pending && intents[i].topic == Some(t)
    {
      found := exists i | i in intents :: i != excluded && intents[i].pending && intents[i].topic == Some(t);
    }

    method ResolveIntent(i: Id, now: int)
      modifies `intents, `topics
      ensures Value() == Next(policy, old(Value()), EndIntent(i, now))
    {
      if i !in intents { return; }
      var intent := intents[i];
      intents := intents[i := intent.(pending := false)];
      if intent.topic.Some? {
        var open := HasPendingIntent(intent.topic.value, i);
        assert open <==> HasPending(intents, intent.topic.value);
        if !open { MarkTopicUnfinished(intent.topic, false, now); }
      }
    }

    // ---------------------------------------------------------------- embedding results

    // The semantic scan, over every other topic embedded under the model of t, in any order.
    method FindNearest(t: Id) returns (best: Option<Id>)
      requires t in topics && t in embeddings
      ensures Nearest(policy, Value(), t, best)
    {
      best := None;
      if policy.cosineCut <= 0.0 { return; }
      var most := 0.0;
      var own := embeddings[t];
      var left := set u | u in embeddings && embeddings[u].model == own.model && u != t;
      ghost var all := left;
      while left != {}
        invariant left <= all
        invariant best.None? ==> most == 0.0 && forall u :: u in all - left ==> !Duplicate(policy, Value(), t, u)
        invariant best.Some? ==>
                    && best.value != t && Duplicate(policy, Value(), t, best.value)
                    && most == policy.cosine(own.vector, embeddings[best.value].vector)
                    && (forall u :: u in all - left && Duplicate(policy, Value(), t, u) ==>
                          policy.cosine(own.vector, embeddings[u].vector) <= most)
        decreases left
      {
        var u :| u in left;
        left := left - {u};
        var c := policy.cosine(own.vector, embeddings[u].vector);
        if c < policy.cosineCut || c <= most { continue; }
        if u !in topics || Conflict(policy, topics[t].summary, topics[u].summary) { continue; }
        best, most := Some(u), c;
      }
    }

    method MergeExpression(t: Outbox.Candidate, best: Outbox.Candidate)
      modifies `expressed
      ensures expressed == MergeExpressed(old(expressed), t, best)
    {
      if t !in expressed { return; }
      var at := expressed[t];
      if best in expressed && expressed[best] > at { at := expressed[best]; }
      expressed := expressed[best := at];
      expressed := expressed - {t};
    }

    method DeleteTopic(t: Id)
      modifies `topics, `embeddings, `expressed
      ensures topics == old(topics) - {t} && embeddings == old(embeddings) - {t}
      ensures expressed == old(expressed) - {TopicCandidate(t)}
    {
      topics := topics - {t};
      embeddings := embeddings - {t};
      expressed := expressed - {TopicCandidate(t)};
    }

    // Intents, expression record and in-flight items first; then the survivor; then the deletion.
    method MergeInto(t: Id, best: Id, now: int)
      requires t in topics && best in topics && t != best
      modifies `topics, `embeddings, `intents, `rows, `expressed
      ensures Value() == Merge(old(Value()), t, best, now)
    {
      var topic, survivor := topics[t], topics[best];
      intents := Redirect(intents, t, best);
      MergeExpression(TopicCandidate(t), TopicCandidate(best));
      var source, target := TopicCandidate(t), TopicCandidate(best);
      rows := map m | m in rows ::
                if Outbox.InFlight(rows[m]) && rows[m].candidate == Some(source)
                then rows[m].(candidate := Some(target)) else rows[m];
      var unfinished := survivor.unfinished || HasPending(intents, best);
      var origin := if survivor.source.Some? then survivor.source else topic.source;
      topics := topics[best := survivor.(activation := Max(survivor.activation, topic.activation),
                                         importance := Max(survivor.importance, topic.importance),
                                         evidence := survivor.evidence + topic.evidence,
                                         unfinished := unfinished, source := origin, activated := now)];
      DeleteTopic(t);
      assert expressed == MergeExpressed(old(expressed), source, target);
    }

    method HandleTopicEmbedding(t: Id, model: Id, vector: Vector, now: int) returns (merged: bool, ghost nearest: Option<Id>)
      modifies `topics, `embeddings, `intents, `rows, `expressed
      ensures Enabled(policy, old(Value()), EmbedTopic(t, model, vector, nearest, now))
      ensures Value() == Next(policy, old(Value()), EmbedTopic(t, model, vector, nearest, now))
      ensures merged <==> t in old(topics) && t !in topics
    {
      merged, nearest := false, None;
      if t !in topics { return; }
      embeddings := embeddings[t := Embedding(model, vector)];
      var best := FindNearest(t);
      nearest := best;
      if best.Some? {
        MergeInto(t, best.value, now);
        merged := true;
      }
    }
  }
}
