// What each operation on outbound rows means, in the terms of a reader of the tables: which rows it
// touches and what it leaves in them, and what that amounts to over runs.
module OutboxLaws {
  import opened Base
  import opened Outbox

  // An undelivered proactive row, spelled out.
  predicate Outstanding(m: Message) { m.kind == PROACTIVE && (m.status == PENDING_DELIVERY || m.status == DELIVERING) }

  // ---------------------------------------------------------------- the recovery sweep

  // Exactly the outstanding rows whose time has come are expired; nothing else changes.
  lemma SweepExact(b: Box, now: int)
    ensures var b' := Next(b, Sweep(now));
            && b' == b.(rows := b'.rows) && b'.rows.Keys == b.rows.Keys
            && forall m :: m in b.rows ==>
                 var row, due := b.rows[m], Outstanding(b.rows[m]) && b.rows[m].expires.Some? && b.rows[m].expires.value <= now;
                 && (due ==> b'.rows[m] == row.(status := EXPIRED, error := Some("expired:recovery")))
                 && (!due ==> b'.rows[m] == row)
  {
  }

  // ---------------------------------------------------------------- a new message

  // A new row is pending; a proactive one has a time limit and replaces exactly the outstanding
  // rows of its channel.
  lemma SpeakExact(b: Box, step: Step)
    requires step.Speak? && Enabled(b, step)
    ensures var b' := Next(b, step);
            && b' == b.(rows := b'.rows) && b'.rows.Keys == b.rows.Keys + {step.id}
            && b'.rows[step.id] == Message(step.kind, step.channel, PENDING_DELIVERY,
                                           if step.kind == PROACTIVE then Some(step.now + step.ttl) else None,
                                           step.candidate, None, None, None)
            && forall m :: m in b.rows ==>
                 var row, replaced := b.rows[m], step.kind == PROACTIVE && Outstanding(b.rows[m]) && b.rows[m].channel == step.channel;
                 && (replaced ==> b'.rows[m] == row.(status := SUPERSEDED, supersededBy := Some(step.id), error := None))
                 && (!replaced ==> b'.rows[m] == row)
  {
  }

  // ---------------------------------------------------------------- a report

  // The status an undelivered row is left in, by its kind and the error reported.
  predicate Left(m: Message, error: string, status: Status) {
    if m.kind == MANDATORY then status == PENDING_DELIVERY
    else if "superseded" <= error || "coalesced" <= error then status == SUPERSEDED
    else if "expired" <= error || "revalidation" <= error then status == EXPIRED
    else if error == "no_client" then status == PENDING_DELIVERY
    else status == FAILED
  }

  // A report about an unknown or delivered message changes nothing; a delivery stamps the row and
  // records the turn, the time and, for a proactive row, the count and the candidate's time; any
  // other report leaves the row in the status of its error.
  lemma ReportExact(b: Box, step: Step)
    requires step.Report?
    ensures var b' := Next(b, step);
            if step.id !in b.rows || b.rows[step.id].status == DELIVERED then b' == b
            else
              var m, m' := b.rows[step.id], b'.rows[step.id];
              && b'.rows == b.rows[step.id := m']
              && b'.attempts == b.attempts + [Attempt(step.id, step.delivered, step.at, step.error)]
              && if step.delivered then
                   && m' == m.(status := DELIVERED, delivered := Some(step.at), error := None)
                   && b'.turns == b.turns + [step.id] && b'.lastDelivered == Some(step.at)
                   && b'.recent == b.recent + (if m.kind == PROACTIVE then 1 else 0)
                   && b'.expressed == if m.kind == PROACTIVE && m.candidate.Some? then b.expressed[m.candidate.value := step.at]
                                      else b.expressed
                 else
                   && m' == m.(status := m'.status, error := Some(step.error)) && Left(m, step.error, m'.status)
                   && b'.turns == b.turns && b'.lastDelivered == b.lastDelivered
                   && b'.recent == b.recent && b'.expressed == b.expressed
  {
    Prefixes(step.error);
  }

  // No error starts in two of these ways.
  lemma Prefixes(e: string)
    ensures "superseded" <= e || "coalesced" <= e ==> !("expired" <= e) && !("revalidation" <= e) && e != "no_client"
    ensures "expired" <= e || "revalidation" <= e ==> e != "no_client"
  {
    assert "superseded"[0] == 's' && "coalesced"[0] == 'c' && "expired"[0] == 'e' && "revalidation"[0] == 'r' && "no_client"[0] == 'n';
  }

  // ---------------------------------------------------------------- the age of a message

  // The row is the one the step made, as far as its kind, channel and time limit go.
  predicate MadeBy(b: Box, id: Id, step: Step) {
    && step.Speak? && step.id == id && id in b.rows
    && b.rows[id].kind == step.kind && b.rows[id].channel == step.channel
    && b.rows[id].expires == if step.kind == PROACTIVE then Some(step.now + step.ttl) else None
  }

  lemma MadeNext(b: Box, id: Id, made: Step, step: Step)
    requires Enabled(b, step) && MadeBy(b, id, made)
    ensures MadeBy(Next(b, step), id, made)
  {
    if step.Speak? { SpeakExact(b, step); }
    if step.Report? { ReportExact(b, step); }
    if step.Sweep? { SweepExact(b, step.now); }
    hide Create, Result, Expire;
  }

  lemma {:induction false} MadeRun(b: Box, run: seq<Step>, id: Id, made: Step)
    requires ValidRun(b, run) && MadeBy(b, id, made)
    ensures MadeBy(Exec(b, run), id, made)
    decreases |run|
  {
    hide MadeBy, Next, Enabled;
    if run != [] {
      MadeNext(b, id, made, run[0]);
      MadeRun(Next(b, run[0]), run[1..], id, made);
    }
  }

  // Whatever happened since, a proactive message spoken at a time t for ttl seconds and still
  // outstanding is expired by a sweep at `now` if and only if t + ttl <= now.
  lemma SweptByAge(b: Box, speak: Step, run: seq<Step>, now: int)
    requires speak.Speak? && speak.kind == PROACTIVE && Enabled(b, speak) && ValidRun(Next(b, speak), run)
    requires var rows := Exec(Next(b, speak), run).rows; speak.id in rows && Outstanding(rows[speak.id])
    ensures var after := Next(Exec(Next(b, speak), run), Sweep(now));
            speak.id in after.rows && (after.rows[speak.id].status == EXPIRED <==> speak.now + speak.ttl <= now)
  {
    SpeakExact(b, speak);
    MadeRun(Next(b, speak), run, speak.id, speak);
    SweepExact(Exec(Next(b, speak), run), now);
    hide Next, Enabled;
  }

  // ---------------------------------------------------------------- stamps

  // A row is delivered exactly when it carries a stamp, and the stamp is the time of its delivery.
  ghost predicate Stamped(b: Box) {
    && (forall m :: m in b.rows ==> (b.rows[m].status == DELIVERED <==> b.rows[m].delivered.Some?))
    && (forall i :: 0 <= i < |b.attempts| && b.attempts[i].delivered ==>
          b.attempts[i].id in b.rows && b.rows[b.attempts[i].id].delivered == Some(b.attempts[i].at))
  }

  lemma StampedNext(b: Box, step: Step)
    requires Stamped(b) && Enabled(b, step)
    ensures Stamped(Next(b, step))
  {
    if step.Speak? { SpeakExact(b, step); }
    if step.Report? { ReportExact(b, step); }
    if step.Sweep? { SweepExact(b, step.now); }
    hide Create, Result, Expire;
  }

  lemma {:induction false} StampedRun(b: Box, run: seq<Step>)
    requires Stamped(b) && ValidRun(b, run)
    ensures Stamped(Exec(b, run))
    decreases |run|
  {
    hide Stamped, Next, Enabled;
    if run != [] {
      StampedNext(b, run[0]);
      StampedRun(Next(b, run[0]), run[1..]);
    }
  }
}
