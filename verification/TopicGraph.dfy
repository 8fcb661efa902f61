// The topic graph: memories, topics, their embeddings and intents, and the records that name them.
//
// `Graph` is the value of the tables. The functions give each operation; `Step` and `Next` put
// them into one transition system, whose runs are all the ways topics are created, reinforced,
// merged and deleted. The class of module `TopicTables` updates the same
// tables in place.
module TopicGraph {
  import opened Base
  import opened Vectors
  import Outbox

  datatype Enrichment = RAW | PENDING_ENRICHMENT | ENRICHED | DO_NOT_ENRICH
  datatype Memory = Memory(text: string, salience: real, activation: real, status: Enrichment, attempts: nat)

  datatype Topic = Topic(
    summary: string, activation: real, importance: real, unfinished: bool, evidence: nat,
    source: Option<Id>, activated: int)

  datatype Embedding = Embedding(model: Id, vector: Vector)
  datatype Intent = Intent(topic: Option<Id>, pending: bool)

  datatype Graph = Graph(
    memories: map<Id, Memory>, topics: map<Id, Topic>, embeddings: map<Id, Embedding>,
    intents: map<Id, Intent>, box: Outbox.Box)

  // What configuration and the text and vector helpers decide. A cut that is not positive
  // switches its kind of merge off.
  datatype Policy = Policy(
    negated: string -> bool, overlap: (string, string) -> real, cosine: (Vector, Vector) -> real,
    lexicalCut: real, cosineCut: real, salienceFloor: real, maxAttempts: nat, window: int)

  ghost predicate SymmetricCosine(p: Policy) { forall a, b :: p.cosine(a, b) == p.cosine(b, a) }

  // The cosine of the program, ordered as `Similarity` orders it, is one such policy.
  lemma ExactCosine(p: Policy)
    requires p.cosine == Similarity
    ensures SymmetricCosine(p)
  {
    forall a, b ensures p.cosine(a, b) == p.cosine(b, a) { Symmetric(a, b); }
  }

  function Max(a: real, b: real): real { if a >= b then a else b }

  function TopicCandidate(t: Id): Outbox.Candidate { Outbox.Candidate(Outbox.TOPIC, t) }
  function MemoryCandidate(m: Id): Outbox.Candidate { Outbox.Candidate(Outbox.PROVISIONAL_MEMORY, m) }

  // ---------------------------------------------------------------- searching for a duplicate

  predicate Conflict(p: Policy, a: string, b: string) { p.negated(a) != p.negated(b) }

  // Topic t is close enough in wording to `summary` to be reinforced instead.
  predicate Similar(p: Policy, g: Graph, summary: string, t: Id) {
    t in g.topics && p.overlap(summary, g.topics[t].summary) >= p.lexicalCut && !Conflict(p, summary, g.topics[t].summary)
  }

  // Topic u is a semantic duplicate of topic t, both embedded under the same model.
  predicate Duplicate(p: Policy, g: Graph, t: Id, u: Id) {
    && t in g.topics && u in g.topics && t in g.embeddings && u in g.embeddings
    && g.embeddings[t].model == g.embeddings[u].model
    && p.cosine(g.embeddings[t].vector, g.embeddings[u].vector) >= p.cosineCut
    && !Conflict(p, g.topics[t].summary, g.topics[u].summary)
  }

  // The result of the lexical scan: the most similar topic, the earliest of equals, or none.
  ghost predicate MostSimilar(p: Policy, g: Graph, summary: string, scan: seq<Id>, r: Option<Id>) {
    if p.lexicalCut <= 0.0 then r.None?
    else match r
      case None => forall t :: t in scan ==> !Similar(p, g, summary, t)
      case Some(best) =>
        && best in scan && Similar(p, g, summary, best)
        && var most := p.overlap(summary, g.topics[best].summary);
           && (forall t :: t in scan && Similar(p, g, summary, t) ==> p.overlap(summary, g.topics[t].summary) <= most)
           && (forall j, k :: 0 <= j < k < |scan| && scan[k] == best && Similar(p, g, summary, scan[j]) ==>
                 p.overlap(summary, g.topics[scan[j]].summary) < most)
  }

  // The result of the semantic scan over every other topic embedded under the model of t.
  ghost predicate Nearest(p: Policy, g: Graph, t: Id, r: Option<Id>)
    requires t in g.embeddings
  {
    if p.cosineCut <= 0.0 then r.None?
    else match r
      case None => forall u :: u in g.embeddings && u != t ==> !Duplicate(p, g, t, u)
      case Some(best) =>
        && best != t && Duplicate(p, g, t, best)
        && forall u :: u in g.embeddings && u != t && Duplicate(p, g, t, u) ==>
             p.cosine(g.embeddings[t].vector, g.embeddings[u].vector) <= p.cosine(g.embeddings[t].vector, g.embeddings[best].vector)
  }

  // The lexical scan sees the fifty topics most recently active.
  const SCAN: nat := 50

  ghost predicate Hottest(g: Graph, scan: seq<Id>) {
    && Distinct(scan) && (forall t :: t in scan ==> t in g.topics)
    && |scan| == (if |g.topics| < SCAN then |g.topics| else SCAN)
    && forall t, u :: t in scan && u in g.topics && u !in scan ==> g.topics[t].activated >= g.topics[u].activated
  }

  // ---------------------------------------------------------------- operations

  function Enrich(p: Policy, g: Graph, m: Id, summary: string, similar: Option<Id>, minted: Id, now: int): Graph
    requires similar.Some? ==> similar.value in g.topics
  {
    if m !in g.memories || g.memories[m].status.ENRICHED? then g
    else
      var memory := g.memories[m];
      if memory.salience < p.salienceFloor then g.(memories := g.memories[m := memory.(status := DO_NOT_ENRICH)])
      else
        var g' := g.(memories := g.memories[m := memory.(status := ENRICHED)]);
        if similar.Some? then
          var t := g.topics[similar.value];
          g'.(topics := g.topics[similar.value := t.(activation := Max(t.activation, memory.activation),
                                                     importance := Max(t.importance, memory.salience),
                                                     evidence := t.evidence + 1, activated := now)])
        else
          g'.(topics := g.topics[minted := Topic(summary, memory.activation, memory.salience, false, 1, Some(m), now)])
  }

  function HasPending(intents: map<Id, Intent>, t: Id): bool {
    exists i | i in intents :: intents[i].pending && intents[i].topic == Some(t)
  }

  function Mark(g: Graph, t: Option<Id>, unfinished: bool, now: int): Graph {
    if t.None? || t.value !in g.topics || g.topics[t.value].unfinished == unfinished then g
    else g.(topics := g.topics[t.value := g.topics[t.value].(unfinished := unfinished, activated := now)])
  }

  function CreateIntent(g: Graph, i: Id, t: Option<Id>, now: int): Graph {
    Mark(g.(intents := g.intents[i := Intent(t, true)]), t, true, now)
  }

  function ResolveIntent(g: Graph, i: Id, now: int): Graph {
    if i !in g.intents then g
    else
      var t := g.intents[i].topic;
      var g' := g.(intents := g.intents[i := g.intents[i].(pending := false)]);
      if t.Some? && !HasPending(g'.intents, t.value) then Mark(g', t, false, now) else g'
  }

  function Redirect(intents: map<Id, Intent>, t: Id, best: Id): map<Id, Intent> {
    map i | i in intents :: if intents[i].topic == Some(t) then intents[i].(topic := Some(best)) else intents[i]
  }

  // The later of the two times, on the survivor; nothing on the dead topic.
  function MergeExpressed(expressed: map<Outbox.Candidate, int>, t: Outbox.Candidate, best: Outbox.Candidate)
    : map<Outbox.Candidate, int>
  {
    if t !in expressed then expressed
    else
      var at := if best in expressed && expressed[best] > expressed[t] then expressed[best] else expressed[t];
      expressed[best := at] - {t}
  }

  function Merge(g: Graph, t: Id, best: Id, now: int): Graph
    requires t in g.topics && best in g.topics && t != best
  {
    var b := g.topics[best];
    var d := g.topics[t];
    var intents := Redirect(g.intents, t, best);
    var box := Outbox.Reassign(g.box, TopicCandidate(t), TopicCandidate(best));
    var survivor := b.(activation := Max(b.activation, d.activation), importance := Max(b.importance, d.importance),
                       evidence := b.evidence + d.evidence, unfinished := b.unfinished || HasPending(intents, best),
                       source := if b.source.Some? then b.source else d.source, activated := now);
    g.(topics := g.topics[best := survivor] - {t}, embeddings := g.embeddings - {t}, intents := intents,
       box := box.(expressed := MergeExpressed(g.box.expressed, TopicCandidate(t), TopicCandidate(best))))
  }

  function Embed(g: Graph, t: Id, model: Id, vector: Vector): Graph {
    g.(embeddings := g.embeddings[t := Embedding(model, vector)])
  }

  function TopicEmbedded(g: Graph, t: Id, model: Id, vector: Vector, nearest: Option<Id>, now: int): Graph
    requires t in g.topics && nearest.Some? ==> nearest.value in g.topics && nearest.value != t
  {
    if t !in g.topics then g
    else if nearest.None? then Embed(g, t, model, vector)
    else Merge(Embed(g, t, model, vector), t, nearest.value, now)
  }

  // Claiming a memory, and giving the claim back.
  function Claim(p: Policy, g: Graph, m: Id): Graph {
    if m in g.memories && g.memories[m].status.RAW? && g.memories[m].salience >= p.salienceFloor
    then g.(memories := g.memories[m := g.memories[m].(status := PENDING_ENRICHMENT)]) else g
  }

  function Release(p: Policy, g: Graph, m: Id): Graph {
    if m in g.memories && g.memories[m].status.PENDING_ENRICHMENT?
    then var attempts := g.memories[m].attempts + 1;
         var status := if attempts >= p.maxAttempts then DO_NOT_ENRICH else RAW;
         g.(memories := g.memories[m := g.memories[m].(status := status, attempts := attempts)])
    else g
  }

  function Adjust(g: Graph, t: Id, activation: real, now: int): Graph {
    if t in g.topics then g.(topics := g.topics[t := g.topics[t].(activation := activation, activated := now)]) else g
  }

  // ---------------------------------------------------------------- steps

  datatype Step =
    | Remember(m: Id, memory: Memory)
    | ClaimMemory(m: Id)
    | ReleaseMemory(m: Id)
    | EnrichMemory(m: Id, summary: string, scan: seq<Id>, similar: Option<Id>, minted: Id, now: int)
    | AdjustTopic(t: Id, activation: real, now: int)
    | AddIntent(i: Id, topic: Option<Id>, now: int)
    | EndIntent(i: Id, now: int)
    | EmbedTopic(t: Id, model: Id, vector: Vector, nearest: Option<Id>, now: int)
    | Deliver(step: Outbox.Step)

  // A fresh topic id is named nowhere yet.
  ghost predicate FreshTopic(g: Graph, t: Id) {
    && t !in g.topics && t !in g.embeddings
    && (forall i :: i in g.intents ==> g.intents[i].topic != Some(t))
    && (forall m :: m in g.box.rows ==> g.box.rows[m].candidate != Some(TopicCandidate(t)))
  }

  // A proactive item about a topic is created only while the topic exists.
  predicate CandidateLives(g: Graph, c: Option<Outbox.Candidate>) {
    c.Some? && c.value.kind.TOPIC? ==> c.value.id in g.topics
  }

  ghost predicate Enabled(p: Policy, g: Graph, step: Step) {
    match step
    case Remember(m, memory) => m !in g.memories && memory.status.RAW? && memory.attempts == 0
    case EnrichMemory(_, summary, scan, similar, minted, _) =>
      Hottest(g, scan) && MostSimilar(p, g, summary, scan, similar) && FreshTopic(g, minted)
    case AddIntent(i, _, _) => i !in g.intents
    case EmbedTopic(t, model, vector, nearest, _) => t in g.topics ==> Nearest(p, Embed(g, t, model, vector), t, nearest)
    case Deliver(step) =>
      Outbox.Enabled(g.box, step) && !step.Merge? && (step.Speak? && step.kind.PROACTIVE? ==> CandidateLives(g, step.candidate))
    case _ => true
  }

  function Next(p: Policy, g: Graph, step: Step): Graph
    requires Enabled(p, g, step)
  {
    match step
    case Remember(m, memory) => g.(memories := g.memories[m := memory])
    case ClaimMemory(m) => Claim(p, g, m)
    case ReleaseMemory(m) => Release(p, g, m)
    case EnrichMemory(m, summary, _, similar, minted, now) => Enrich(p, g, m, summary, similar, minted, now)
    case AdjustTopic(t, activation, now) => Adjust(g, t, activation, now)
    case AddIntent(i, topic, now) => CreateIntent(g, i, topic, now)
    case EndIntent(i, now) => ResolveIntent(g, i, now)
    case EmbedTopic(t, model, vector, nearest, now) =>
      if t in g.topics then TopicEmbedded(g, t, model, vector, nearest, now) else g
    case Deliver(step) => g.(box := Outbox.Next(g.box, step))
  }

  ghost predicate ValidRun(p: Policy, g: Graph, run: seq<Step>)
    decreases |run|
  {
    run == [] || (Enabled(p, g, run[0]) && ValidRun(p, Next(p, g, run[0]), run[1..]))
  }

  function Exec(p: Policy, g: Graph, run: seq<Step>): Graph
    requires ValidRun(p, g, run)
    decreases |run|
  {
    if run == [] then g else Exec(p, Next(p, g, run[0]), run[1..])
  }

  function Empty(): Graph { Graph(map[], map[], map[], map[], Outbox.Empty()) }
}
