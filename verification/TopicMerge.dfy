// What a merge does to everything that names a topic, and which topics it keeps out of selection.
module TopicMerge {
  import opened Base
  import opened Vectors
  import opened TopicGraph
  import Outbox

  // ---------------------------------------------------------------- identity moves whole

  // Nothing that selects, suppresses or redirects still names the topic.
  ghost predicate Forgotten(g: Graph, t: Id) {
    && t !in g.topics && t !in g.embeddings && TopicCandidate(t) !in g.box.expressed
    && (forall i :: i in g.intents ==> g.intents[i].topic != Some(t))
    && (forall m :: m in g.box.rows && Outbox.InFlight(g.box.rows[m]) ==> g.box.rows[m].candidate != Some(TopicCandidate(t)))
  }

  // The later of two times.
  function Later(a: Option<int>, b: Option<int>): Option<int> {
    if a.None? then b else if b.None? || b.value <= a.value then a else b
  }

  function Expressed(g: Graph, c: Outbox.Candidate): Option<int> {
    if c in g.box.expressed then Some(g.box.expressed[c]) else None
  }

  lemma MergeRedirects(g: Graph, t: Id, best: Id, now: int)
    requires t in g.topics && best in g.topics && t != best
    ensures var g' := Merge(g, t, best, now);
            && Forgotten(g', t)
            && Expressed(g', TopicCandidate(best)) == Later(Expressed(g, TopicCandidate(t)), Expressed(g, TopicCandidate(best)))
            && g'.topics.Keys == g.topics.Keys - {t}
            && (forall u :: u in g.topics && u != t && u != best ==> g'.topics[u] == g.topics[u])
            && g'.memories == g.memories && g'.box.turns == g.box.turns && g'.box.recent == g.box.recent
  {
  }

  // What named the dead topic names the survivor, and what named anything else is untouched.
  lemma MergeMoves(g: Graph, t: Id, best: Id, now: int)
    requires t in g.topics && best in g.topics && t != best
    ensures var g' := Merge(g, t, best, now);
            && g'.intents.Keys == g.intents.Keys && g'.box.rows.Keys == g.box.rows.Keys
            && (forall i :: i in g.intents ==>
                  && g'.intents[i].pending == g.intents[i].pending
                  && g'.intents[i].topic == if g.intents[i].topic == Some(t) then Some(best) else g.intents[i].topic)
            && (forall m :: m in g.box.rows ==>
                  && g'.box.rows[m].status == g.box.rows[m].status
                  && (!Outbox.InFlight(g.box.rows[m]) ==> g'.box.rows[m] == g.box.rows[m])
                  && (Outbox.InFlight(g.box.rows[m]) ==>
                        g'.box.rows[m].candidate == (if g.box.rows[m].candidate == Some(TopicCandidate(t))
                                                     then Some(TopicCandidate(best)) else g.box.rows[m].candidate)))
            && (forall c :: c != TopicCandidate(t) && c != TopicCandidate(best) ==> Expressed(g', c) == Expressed(g, c))
  {
  }

  // ---------------------------------------------------------------- exclusion from selection

  predicate InFlightAbout(g: Graph, c: Outbox.Candidate) {
    exists m | m in g.box.rows :: Outbox.InFlight(g.box.rows[m]) && g.box.rows[m].candidate == Some(c)
  }

  predicate Suppressed(p: Policy, g: Graph, c: Outbox.Candidate, now: int) {
    || InFlightAbout(g, c)
    || (p.window > 0 && c in g.box.expressed && now - g.box.expressed[c] < p.window)
  }

  predicate TopicSuppressed(p: Policy, g: Graph, t: Id, now: int)
    requires t in g.topics
  {
    || Suppressed(p, g, TopicCandidate(t), now)
    || (g.topics[t].source.Some? && Suppressed(p, g, MemoryCandidate(g.topics[t].source.value), now))
  }

  lemma InFlightMoves(g: Graph, t: Id, best: Id, now: int)
    requires t in g.topics && best in g.topics && t != best
    ensures var g' := Merge(g, t, best, now);
            && (InFlightAbout(g', TopicCandidate(best)) <==>
                  InFlightAbout(g, TopicCandidate(t)) || InFlightAbout(g, TopicCandidate(best)))
            && forall m :: InFlightAbout(g', MemoryCandidate(m)) <==> InFlightAbout(g, MemoryCandidate(m))
  {
    var g' := Merge(g, t, best, now);
    MergeMoves(g, t, best, now);
    if InFlightAbout(g, TopicCandidate(t)) {
      var m :| m in g.box.rows && Outbox.InFlight(g.box.rows[m]) && g.box.rows[m].candidate == Some(TopicCandidate(t));
      assert Outbox.InFlight(g'.box.rows[m]) && g'.box.rows[m].candidate == Some(TopicCandidate(best));
    }
    if InFlightAbout(g, TopicCandidate(best)) {
      var m :| m in g.box.rows && Outbox.InFlight(g.box.rows[m]) && g.box.rows[m].candidate == Some(TopicCandidate(best));
      assert g'.box.rows[m] == g.box.rows[m];
    }
    forall m ensures InFlightAbout(g', MemoryCandidate(m)) <==> InFlightAbout(g, MemoryCandidate(m)) {
      if InFlightAbout(g, MemoryCandidate(m)) {
        var n :| n in g.box.rows && Outbox.InFlight(g.box.rows[n]) && g.box.rows[n].candidate == Some(MemoryCandidate(m));
        assert g'.box.rows[n] == g.box.rows[n];
      }
    }
  }

  lemma SuppressionMoves(p: Policy, g: Graph, t: Id, best: Id, now: int, later: int)
    requires t in g.topics && best in g.topics && t != best
    ensures var g' := Merge(g, t, best, now);
            && (Suppressed(p, g', TopicCandidate(best), later) <==>
                  Suppressed(p, g, TopicCandidate(t), later) || Suppressed(p, g, TopicCandidate(best), later))
            && forall m :: Suppressed(p, g', MemoryCandidate(m), later) <==> Suppressed(p, g, MemoryCandidate(m), later)
  {
    InFlightMoves(g, t, best, now);
    MergeRedirects(g, t, best, now);
    MergeMoves(g, t, best, now);
    var g' := Merge(g, t, best, now);
    forall m ensures Expressed(g', MemoryCandidate(m)) == Expressed(g, MemoryCandidate(m)) {}
  }

  // At any later time the survivor is excluded from selection exactly when one of the two topics
  // was excluded by its own record, or the memory the survivor comes from is excluded.
  lemma SurvivorSuppressed(p: Policy, g: Graph, t: Id, best: Id, now: int, later: int)
    requires t in g.topics && best in g.topics && t != best
    ensures var g' := Merge(g, t, best, now);
            var source := if g.topics[best].source.Some? then g.topics[best].source else g.topics[t].source;
            TopicSuppressed(p, g', best, later) <==>
              (|| Suppressed(p, g, TopicCandidate(t), later)
               || Suppressed(p, g, TopicCandidate(best), later)
               || (source.Some? && Suppressed(p, g, MemoryCandidate(source.value), later)))
  {
    SuppressionMoves(p, g, t, best, now, later);
  }

  // So exclusion follows the merge when the duplicate owes it to its own record, or when the
  // survivor had no source memory of its own; otherwise it can be lost.
  lemma ExclusionFollows(p: Policy, g: Graph, t: Id, best: Id, now: int, later: int)
    requires t in g.topics && best in g.topics && t != best && TopicSuppressed(p, g, t, later)
    ensures TopicSuppressed(p, Merge(g, t, best, now), best, later) <==>
              (|| Suppressed(p, g, TopicCandidate(t), later) || g.topics[best].source.None?
               || TopicSuppressed(p, g, best, later))
  {
    SurvivorSuppressed(p, g, t, best, now, later);
  }

  // ---------------------------------------------------------------- in-flight items name live topics

  ghost predicate LiveInv(g: Graph) {
    forall m :: m in g.box.rows && Outbox.InFlight(g.box.rows[m]) ==> CandidateLives(g, g.box.rows[m].candidate)
  }

  // A no_client report puts back a row about a topic that is gone.
  predicate RevivesDead(g: Graph, step: Step) {
    step.Deliver? && Outbox.Revives(g.box, step.step) && !CandidateLives(g, g.box.rows[step.step.id].candidate)
  }

  lemma DeliverLives(p: Policy, g: Graph, step: Step)
    requires LiveInv(g) && Enabled(p, g, step) && step.Deliver?
    ensures LiveInv(Next(p, g, step)) <==> !RevivesDead(g, step)
  {
    var g', s := Next(p, g, step), step.step;
    if s.Report? {
      Outbox.ReportShape(g.box, s.id, s.delivered, s.error, s.at);
      if s.id in g.box.rows { ReportCandidate(g.box, s); }
      if Outbox.Revives(g.box, s) { Outbox.NoClientIsNoDrop(); }
    }
    if RevivesDead(g, step) {
      assert Outbox.InFlight(g'.box.rows[s.id]);
    }
  }

  // A report keeps the candidate of its row, and revives only what `Revives` says.
  lemma ReportCandidate(b: Outbox.Box, s: Outbox.Step)
    requires s.Report? && s.id in b.rows
    ensures var m := Outbox.Next(b, s).rows;
            && s.id in m && m[s.id].candidate == b.rows[s.id].candidate
            && (Outbox.InFlight(m[s.id]) ==> Outbox.InFlight(b.rows[s.id]) || Outbox.Revives(b, s))
  {
  }

  lemma MergeLives(g: Graph, t: Id, best: Id, now: int)
    requires LiveInv(g) && t in g.topics && best in g.topics && t != best
    ensures LiveInv(Merge(g, t, best, now))
  {
    MergeMoves(g, t, best, now);
    var g' := Merge(g, t, best, now);
    forall m | m in g'.box.rows && Outbox.InFlight(g'.box.rows[m]) ensures CandidateLives(g', g'.box.rows[m].candidate) {
      assert Outbox.InFlight(g.box.rows[m]) && CandidateLives(g, g.box.rows[m].candidate);
    }
  }

  // Steps that neither report, merge nor speak leave the box alone and remove no topic.
  lemma QuietNext(p: Policy, g: Graph, step: Step)
    requires Enabled(p, g, step) && !step.Deliver? && !step.EmbedTopic?
    ensures Next(p, g, step).box == g.box && g.topics.Keys <= Next(p, g, step).topics.Keys
  {
    hide MostSimilar, Hottest, FreshTopic, HasPending;
  }

  lemma EmbedShape(g: Graph, t: Id, model: Id, vector: Vector)
    ensures var g' := Embed(g, t, model, vector); g'.box == g.box && g'.topics == g.topics && g'.intents == g.intents
  {
  }

  // Exactly such a report makes an item in flight name a dead topic; a merge never does.
  lemma LiveNext(p: Policy, g: Graph, step: Step)
    requires LiveInv(g) && Enabled(p, g, step)
    ensures LiveInv(Next(p, g, step)) <==> !RevivesDead(g, step)
  {
    match step
    case Deliver(_) => DeliverLives(p, g, step);
    case EmbedTopic(t, model, vector, nearest, now) =>
      EmbedShape(g, t, model, vector);
      hide Merge, Embed;
      if t in g.topics && nearest.Some? { MergeLives(Embed(g, t, model, vector), t, nearest.value, now); }
    case _ =>
      QuietNext(p, g, step);
      hide Next, Enabled;
  }

  // ---------------------------------------------------------------- no record names a dead topic

  ghost predicate ExpressedLive(g: Graph) { forall c :: c in g.box.expressed ==> CandidateLives(g, Some(c)) }

  predicate TopicLives(g: Graph, t: Option<Id>) { t.Some? ==> t.value in g.topics }

  ghost predicate IntentsLive(g: Graph) { forall i :: i in g.intents ==> TopicLives(g, g.intents[i].topic) }

  // In-flight items, expression times and intents all name live topics.
  ghost predicate Orderly(g: Graph) { LiveInv(g) && ExpressedLive(g) && IntentsLive(g) }

  // A report records a delivery about a topic that is gone.
  predicate VoicesDead(g: Graph, step: Step) {
    && step.Deliver? && step.step.Report? && step.step.delivered && step.step.id in g.box.rows
    && var m := g.box.rows[step.step.id];
       !m.status.DELIVERED? && m.kind.PROACTIVE? && !CandidateLives(g, m.candidate)
  }

  // An intent is opened on a topic that is not there.
  predicate StraysIntent(g: Graph, step: Step) { step.AddIntent? && !TopicLives(g, step.topic) }

  predicate Disturbs(g: Graph, step: Step) { RevivesDead(g, step) || VoicesDead(g, step) || StraysIntent(g, step) }

  lemma DeliverExpresses(p: Policy, g: Graph, step: Step)
    requires ExpressedLive(g) && Enabled(p, g, step) && step.Deliver?
    ensures ExpressedLive(Next(p, g, step)) <==> !VoicesDead(g, step)
  {
    var g', s := Next(p, g, step), step.step;
    assert g'.topics == g.topics;
    if VoicesDead(g, step) {
      assert g.box.rows[s.id].candidate.value in g'.box.expressed;
    }
  }

  lemma MergeExpresses(g: Graph, t: Id, best: Id, now: int)
    requires ExpressedLive(g) && t in g.topics && best in g.topics && t != best
    ensures ExpressedLive(Merge(g, t, best, now))
  {
    var g' := Merge(g, t, best, now);
    forall c | c in g'.box.expressed ensures CandidateLives(g', Some(c)) {
      assert c in g.box.expressed || c == TopicCandidate(best);
    }
  }

  // Exactly a delivery about a dead topic gives it an expression time.
  lemma ExpressedNext(p: Policy, g: Graph, step: Step)
    requires ExpressedLive(g) && Enabled(p, g, step)
    ensures ExpressedLive(Next(p, g, step)) <==> !VoicesDead(g, step)
  {
    match step
    case Deliver(_) => DeliverExpresses(p, g, step);
    case EmbedTopic(t, model, vector, nearest, now) =>
      EmbedShape(g, t, model, vector);
      hide Merge, Embed;
      if t in g.topics && nearest.Some? { MergeExpresses(Embed(g, t, model, vector), t, nearest.value, now); }
    case _ =>
      QuietNext(p, g, step);
      hide Next, Enabled;
  }

  lemma OpensIntent(g: Graph, i: Id, t: Option<Id>, now: int)
    requires IntentsLive(g) && i !in g.intents
    ensures IntentsLive(CreateIntent(g, i, t, now)) <==> TopicLives(g, t)
  {
    var g' := CreateIntent(g, i, t, now);
    assert g'.intents == g.intents[i := Intent(t, true)] && g'.topics.Keys == g.topics.Keys;
    assert g'.intents[i].topic == t;
    forall j | j in g.intents ensures TopicLives(g', g'.intents[j].topic) { assert g'.intents[j] == g.intents[j]; }
  }

  lemma MergeIntents(g: Graph, t: Id, best: Id, now: int)
    requires IntentsLive(g) && t in g.topics && best in g.topics && t != best
    ensures IntentsLive(Merge(g, t, best, now))
  {
    MergeMoves(g, t, best, now);
    MergeRedirects(g, t, best, now);
    hide Merge;
  }

  // Other steps keep the topic of every intent.
  lemma SameIntents(p: Policy, g: Graph, step: Step)
    requires Enabled(p, g, step) && !step.AddIntent? && !step.EmbedTopic?
    ensures var g' := Next(p, g, step);
            && g'.intents.Keys == g.intents.Keys && (forall i :: i in g.intents ==> g'.intents[i].topic == g.intents[i].topic)
            && g.topics.Keys <= g'.topics.Keys
  {
    hide MostSimilar, Hottest, FreshTopic, HasPending, Outbox.Next, Outbox.Enabled;
  }

  // Exactly an intent opened on a topic that is not there names one.
  lemma IntentsNext(p: Policy, g: Graph, step: Step)
    requires IntentsLive(g) && Enabled(p, g, step)
    ensures IntentsLive(Next(p, g, step)) <==> !StraysIntent(g, step)
  {
    match step
    case AddIntent(i, topic, now) => OpensIntent(g, i, topic, now);
    case EmbedTopic(t, model, vector, nearest, now) =>
      EmbedShape(g, t, model, vector);
      hide Merge, Embed;
      if t in g.topics && nearest.Some? { MergeIntents(Embed(g, t, model, vector), t, nearest.value, now); }
    case _ =>
      SameIntents(p, g, step);
      hide Next, Enabled;
  }

  // Exactly these three steps break it: a no_client report that puts back an item about a dead
  // topic, a delivery about one, and an intent opened on one. A merge never does.
  lemma OrderlyNext(p: Policy, g: Graph, step: Step)
    requires Orderly(g) && Enabled(p, g, step)
    ensures Orderly(Next(p, g, step)) <==> !Disturbs(g, step)
  {
    hide LiveInv, ExpressedLive, IntentsLive, RevivesDead, VoicesDead, StraysIntent, Next, Enabled;
    LiveNext(p, g, step);
    ExpressedNext(p, g, step);
    IntentsNext(p, g, step);
  }

  ghost predicate AlwaysOrderly(p: Policy, g: Graph, run: seq<Step>)
    requires ValidRun(p, g, run)
    decreases |run|
  {
    Orderly(g) && (run == [] || AlwaysOrderly(p, Next(p, g, run[0]), run[1..]))
  }

  ghost predicate SomeDisturbance(p: Policy, g: Graph, run: seq<Step>)
    requires ValidRun(p, g, run)
    decreases |run|
  {
    run != [] && (Disturbs(g, run[0]) || SomeDisturbance(p, Next(p, g, run[0]), run[1..]))
  }

  // Over every run: nothing names a dead topic all along, if and only if no such step occurs.
  lemma {:induction false} OrderlyRun(p: Policy, g: Graph, run: seq<Step>)
    requires Orderly(g) && ValidRun(p, g, run)
    ensures AlwaysOrderly(p, g, run) <==> !SomeDisturbance(p, g, run)
    decreases |run|
  {
    hide Orderly, Disturbs, Next, Enabled;
    if run != [] {
      OrderlyNext(p, g, run[0]);
      if Orderly(Next(p, g, run[0])) { OrderlyRun(p, Next(p, g, run[0]), run[1..]); }
    }
  }

  lemma OrderlyFromEmpty(p: Policy, run: seq<Step>)
    requires ValidRun(p, Empty(), run)
    ensures AlwaysOrderly(p, Empty(), run) <==> !SomeDisturbance(p, Empty(), run)
  {
    OrderlyRun(p, Empty(), run);
  }
}
