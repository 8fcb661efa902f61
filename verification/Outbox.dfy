// Outbound messages: one row per decision to speak, and what delivery results make of it.
//
// `Box` is the value of the tables; the functions below are the specification, and the class
// `Outbox` at the end changes the same tables in place, one statement at a time.
module Outbox {
  import opened Base

  datatype Kind = MANDATORY | PROACTIVE
  datatype Status = PENDING_DELIVERY | DELIVERING | DELIVERED | EXPIRED | SUPERSEDED | FAILED
  datatype CandidateKind = TOPIC | PROVISIONAL_MEMORY | DEFERRED_INTENT
  datatype Candidate = Candidate(kind: CandidateKind, id: Id)

  datatype Message = Message(
    kind: Kind, channel: Id, status: Status, expires: Option<int>, candidate: Option<Candidate>,
    delivered: Option<int>, supersededBy: Option<Id>, error: Option<string>)

  // One reported transport attempt, or drop.
  datatype Attempt = Attempt(id: Id, delivered: bool, at: int, error: string)

  datatype Box = Box(
    rows: map<Id, Message>,
    turns: seq<Id>,                     // agent turns of the conversation, by message id
    recent: nat,                        // the self-model's recent_proactive_messages
    expressed: map<Candidate, int>,     // last time a candidate was voiced
    attempts: seq<Attempt>,
    lastDelivered: Option<int>)         // the conversation's last_agent_delivered_at

  function Empty(): Box { Box(map[], [], 0, map[], [], None) }

  const NO_CLIENT := "no_client"
  const EXPIRED_ON_RECOVERY := "expired:recovery"

  predicate Undelivered(m: Message) { m.status.PENDING_DELIVERY? || m.status.DELIVERING? }

  predicate InFlight(m: Message) { m.kind.PROACTIVE? && Undelivered(m) }

  predicate StartsWith(s: string, prefix: string) { prefix <= s }

  predicate IsDrop(error: string) {
    || StartsWith(error, "expired") || StartsWith(error, "revalidation")
    || StartsWith(error, "superseded") || StartsWith(error, "coalesced")
  }

  lemma NoClientIsNoDrop()
    ensures !IsDrop(NO_CLIENT)
  {
    assert NO_CLIENT[0] == 'n';
    assert forall p: string :: p <= NO_CLIENT && |p| > 0 ==> p[0] == 'n';
    assert "expired"[0] == 'e' && "revalidation"[0] == 'r' && "superseded"[0] == 's' && "coalesced"[0] == 'c';
  }

  // ---------------------------------------------------------------- operations

  function SupersededBy(rows: map<Id, Message>, channel: Id, id: Id): map<Id, Message> {
    map m | m in rows ::
      if m != id && InFlight(rows[m]) && rows[m].channel == channel
      then rows[m].(status := SUPERSEDED, supersededBy := Some(id), error := None) else rows[m]
  }

  function Create(b: Box, id: Id, kind: Kind, channel: Id, candidate: Option<Candidate>, now: int, ttl: int): Box {
    var expires := if kind.PROACTIVE? then Some(now + ttl) else None;
    var rows := b.rows[id := Message(kind, channel, PENDING_DELIVERY, expires, candidate, None, None, None)];
    b.(rows := if kind.PROACTIVE? then SupersededBy(rows, channel, id) else rows)
  }

  // Where a result that did not deliver leaves its row.
  function Held(m: Message, error: string): Status {
    if m.kind.MANDATORY? then PENDING_DELIVERY
    else if IsDrop(error) then
      if StartsWith(error, "superseded") || StartsWith(error, "coalesced") then SUPERSEDED else EXPIRED
    else if error == NO_CLIENT then PENDING_DELIVERY
    else FAILED
  }

  function Result(b: Box, id: Id, delivered: bool, error: string, at: int): Box {
    if id !in b.rows || b.rows[id].status.DELIVERED? then b
    else
      var m := b.rows[id];
      var noted := b.(attempts := b.attempts + [Attempt(id, delivered, at, error)]);
      if !delivered then noted.(rows := b.rows[id := m.(status := Held(m, error), error := Some(error))])
      else
        var b' := noted.(rows := b.rows[id := m.(status := DELIVERED, delivered := Some(at), error := None)],
                         turns := b.turns + [id], lastDelivered := Some(at));
        if m.kind.MANDATORY? then b'
        else b'.(recent := b.recent + 1,
                 expressed := if m.candidate.Some? then b.expressed[m.candidate.value := at] else b.expressed)
  }

  predicate Stale(m: Message, now: int) { InFlight(m) && m.expires.Some? && m.expires.value <= now }

  function Expire(b: Box, now: int): Box {
    b.(rows := map m | m in b.rows ::
                 if Stale(b.rows[m], now) then b.rows[m].(status := EXPIRED, error := Some(EXPIRED_ON_RECOVERY)) else b.rows[m])
  }

  // In-flight items of one candidate are handed to another.
  function Reassign(b: Box, source: Candidate, target: Candidate): Box {
    b.(rows := map m | m in b.rows ::
                 if InFlight(b.rows[m]) && b.rows[m].candidate == Some(source)
                 then b.rows[m].(candidate := Some(target)) else b.rows[m])
  }

  // ---------------------------------------------------------------- runs

  datatype Step =
    | Speak(id: Id, kind: Kind, channel: Id, candidate: Option<Candidate>, now: int, ttl: int)
    | Report(id: Id, delivered: bool, error: string, at: int)
    | Sweep(now: int)
    | Merge(source: Candidate, target: Candidate)

  predicate Enabled(b: Box, step: Step) { step.Speak? ==> step.id !in b.rows }

  function Next(b: Box, step: Step): Box
    requires Enabled(b, step)
  {
    match step
    case Speak(id, kind, channel, candidate, now, ttl) => Create(b, id, kind, channel, candidate, now, ttl)
    case Report(id, delivered, error, at) => Result(b, id, delivered, error, at)
    case Sweep(now) => Expire(b, now)
    case Merge(source, target) => Reassign(b, source, target)
  }

  predicate ValidRun(b: Box, run: seq<Step>)
    decreases |run|
  {
    run == [] || (Enabled(b, run[0]) && ValidRun(Next(b, run[0]), run[1..]))
  }

  function Exec(b: Box, run: seq<Step>): Box
    requires ValidRun(b, run)
    decreases |run|
  {
    if run == [] then b else Exec(Next(b, run[0]), run[1..])
  }

  // ---------------------------------------------------------------- what delivery promises

  function Delivered(rows: map<Id, Message>): set<Id> {
    set m | m in rows && rows[m].kind.PROACTIVE? && rows[m].status.DELIVERED?
  }

  // A mandatory reply is pending or delivered, never dropped.
  ghost predicate MandatoryInv(b: Box) {
    forall m :: m in b.rows && b.rows[m].kind.MANDATORY? ==> b.rows[m].status in {PENDING_DELIVERY, DELIVERED}
  }

  // One agent turn for each delivered message, none for any other.
  ghost predicate TurnsInv(b: Box) {
    Distinct(b.turns) && forall m :: m in b.turns <==> m in b.rows && b.rows[m].status.DELIVERED?
  }

  // The self-model counts the delivered proactive messages.
  ghost predicate CountInv(b: Box) { b.recent == |Delivered(b.rows)| }

  // The ids of the attempts that delivered, and the time of the last of them.
  function Delivering(attempts: seq<Attempt>): seq<Id> {
    if attempts == [] then []
    else
      var n := |attempts| - 1;
      Delivering(attempts[..n]) + if attempts[n].delivered then [attempts[n].id] else []
  }

  function LastDelivery(attempts: seq<Attempt>): Option<int> {
    if attempts == [] then None
    else
      var n := |attempts| - 1;
      if attempts[n].delivered then Some(attempts[n].at) else LastDelivery(attempts[..n])
  }

  // The agent turns are the deliveries, in order: none is recorded twice or without an attempt.
  ghost predicate AttemptsInv(b: Box) {
    Delivering(b.attempts) == b.turns && LastDelivery(b.attempts) == b.lastDelivered
  }

  ghost predicate Inv(b: Box) { MandatoryInv(b) && TurnsInv(b) && CountInv(b) && AttemptsInv(b) }

  lemma SpeakKeeps(b: Box, step: Step)
    requires Inv(b) && Enabled(b, step) && step.Speak?
    ensures Inv(Next(b, step))
  {
    assert Delivered(Next(b, step).rows) == Delivered(b.rows);
  }

  // A report changes one row that was not delivered, and the turns and the count with it.
  ghost predicate Reported(b: Box, b': Box, id: Id, delivered: bool) {
    && id in b.rows && !b.rows[id].status.DELIVERED?
    && b'.rows.Keys == b.rows.Keys && (forall m :: m in b.rows && m != id ==> b'.rows[m] == b.rows[m])
    && b'.rows[id].kind == b.rows[id].kind && b'.rows[id].channel == b.rows[id].channel
    && (b'.rows[id].status.DELIVERED? <==> delivered)
    && (b.rows[id].kind.MANDATORY? ==> b'.rows[id].status in {PENDING_DELIVERY, DELIVERED})
    && b'.turns == b.turns + (if delivered then [id] else [])
    && b'.recent == b.recent + (if delivered && b.rows[id].kind.PROACTIVE? then 1 else 0)
    && b'.attempts != [] && b'.attempts[..|b'.attempts| - 1] == b.attempts
    && var last := b'.attempts[|b'.attempts| - 1];
       last.id == id && last.delivered == delivered && b'.lastDelivered == if delivered then Some(last.at) else b.lastDelivered
  }

  lemma ReportShape(b: Box, id: Id, delivered: bool, error: string, at: int)
    ensures var b' := Result(b, id, delivered, error, at);
            if id in b.rows && !b.rows[id].status.DELIVERED? then Reported(b, b', id, delivered) else b' == b
  {
  }

  lemma ReportedTurns(b: Box, b': Box, id: Id, delivered: bool)
    requires TurnsInv(b) && Reported(b, b', id, delivered)
    ensures TurnsInv(b')
  {
    assert delivered ==> b'.turns[|b.turns|] == id;
    assert id !in b.turns;
  }

  lemma ReportedAttempts(b: Box, b': Box, id: Id, delivered: bool)
    requires AttemptsInv(b) && Reported(b, b', id, delivered)
    ensures AttemptsInv(b')
  {
  }

  lemma ReportedCount(b: Box, b': Box, id: Id, delivered: bool)
    requires CountInv(b) && Reported(b, b', id, delivered)
    ensures CountInv(b')
  {
    var more: set<Id> := if delivered && b.rows[id].kind.PROACTIVE? then {id} else {};
    assert Delivered(b'.rows) == Delivered(b.rows) + more;
  }

  lemma ReportedKeeps(b: Box, b': Box, id: Id, delivered: bool)
    requires Inv(b) && Reported(b, b', id, delivered)
    ensures Inv(b')
  {
    hide TurnsInv, CountInv, AttemptsInv;
    ReportedAttempts(b, b', id, delivered);
    ReportedTurns(b, b', id, delivered);
    ReportedCount(b, b', id, delivered);
  }

  lemma InvNext(b: Box, step: Step)
    requires Inv(b) && Enabled(b, step)
    ensures Inv(Next(b, step))
  {
    match step
    case Speak(_, _, _, _, _, _) => SpeakKeeps(b, step);
    case Report(id, delivered, error, at) =>
      ReportShape(b, id, delivered, error, at);
      if id in b.rows && !b.rows[id].status.DELIVERED? { ReportedKeeps(b, Next(b, step), id, delivered); }
    case Sweep(_) => assert Delivered(Next(b, step).rows) == Delivered(b.rows);
    case Merge(_, _) => assert Delivered(Next(b, step).rows) == Delivered(b.rows);
  }

  // Over every run: the invariant above, and a delivered row never changes in any way.
  lemma {:induction false} InvRun(b: Box, run: seq<Step>)
    requires Inv(b) && ValidRun(b, run)
    ensures Inv(Exec(b, run))
    ensures forall m :: m in b.rows ==> m in Exec(b, run).rows
    ensures forall m :: m in b.rows && b.rows[m].status.DELIVERED? ==> Exec(b, run).rows[m] == b.rows[m]
    ensures b.turns <= Exec(b, run).turns && b.attempts <= Exec(b, run).attempts
    decreases |run|
  {
    hide Inv;
    if run != [] {
      InvNext(b, run[0]);
      InvRun(Next(b, run[0]), run[1..]);
    }
  }

  // ---------------------------------------------------------------- one in-flight item per channel

  ghost predicate OnePerChannel(b: Box) {
    forall m, n :: m in b.rows && n in b.rows && InFlight(b.rows[m]) && InFlight(b.rows[n])
                   && b.rows[m].channel == b.rows[n].channel
      ==> m == n
  }

  // The report puts a proactive row that already left the queue back to PENDING_DELIVERY.
  predicate Revives(b: Box, step: Step) {
    && step.Report? && !step.delivered && step.error == NO_CLIENT && step.id in b.rows
    && b.rows[step.id].kind.PROACTIVE? && !Undelivered(b.rows[step.id]) && !b.rows[step.id].status.DELIVERED?
  }

  // ... while another item of its channel is in flight.
  predicate Collides(b: Box, step: Step) {
    Revives(b, step) && exists n | n in b.rows :: InFlight(b.rows[n]) && b.rows[n].channel == b.rows[step.id].channel
  }

  // Exactly the colliding report breaks the promise.
  lemma OnePerChannelNext(b: Box, step: Step)
    requires OnePerChannel(b) && Enabled(b, step)
    ensures OnePerChannel(Next(b, step)) <==> !Collides(b, step)
  {
    var b' := Next(b, step);
    if Collides(b, step) {
      NoClientIsNoDrop();
      var n :| n in b.rows && InFlight(b.rows[n]) && b.rows[n].channel == b.rows[step.id].channel;
      assert InFlight(b'.rows[n]) && InFlight(b'.rows[step.id]);
    } else if step.Report? {
      forall m | m in b'.rows && InFlight(b'.rows[m]) && !InFlight(b.rows[m]) ensures m == step.id && Revives(b, step) {
      }
    }
  }

  ghost predicate Along(b: Box, run: seq<Step>)
    requires ValidRun(b, run)
    decreases |run|
  {
    OnePerChannel(b) && (run == [] || Along(Next(b, run[0]), run[1..]))
  }

  ghost predicate SomeCollision(b: Box, run: seq<Step>)
    requires ValidRun(b, run)
    decreases |run|
  {
    run != [] && (Collides(b, run[0]) || SomeCollision(Next(b, run[0]), run[1..]))
  }

  // Over every run: each channel has at most one in-flight item all along, if and only if no
  // such report is ever reduced.
  lemma {:induction false} OnePerChannelRun(b: Box, run: seq<Step>)
    requires OnePerChannel(b) && ValidRun(b, run)
    ensures Along(b, run) <==> !SomeCollision(b, run)
    decreases |run|
  {
    if run != [] {
      OnePerChannelNext(b, run[0]);
      if OnePerChannel(Next(b, run[0])) {
        OnePerChannelRun(Next(b, run[0]), run[1..]);
      } else if run[1..] != [] {
        assert !Along(Next(b, run[0]), run[1..]);
      }
    }
  }

  // The interleaving: a message is sent and its no_client report is still queued when a newer
  // message supersedes it; reducing the report then puts the old one back beside the new one.
  lemma Resurrection()
    ensures var b := Empty();
            var run := [Speak(1, PROACTIVE, 9, None, 0, 60), Speak(2, PROACTIVE, 9, None, 1, 60), Report(1, false, NO_CLIENT, 2)];
            && ValidRun(b, run) && Inv(b) && OnePerChannel(b)
            && Exec(b, run).rows.Keys == {1, 2} && (forall m :: m in Exec(b, run).rows ==> InFlight(Exec(b, run).rows[m]))
            && !OnePerChannel(Exec(b, run))
  {
    var b := Empty();
    var s1 := Next(b, Speak(1, PROACTIVE, 9, None, 0, 60));
    var s2 := Next(s1, Speak(2, PROACTIVE, 9, None, 1, 60));
    var s3 := Next(s2, Report(1, false, NO_CLIENT, 2));
    NoClientIsNoDrop();
    var run := [Speak(1, PROACTIVE, 9, None, 0, 60), Speak(2, PROACTIVE, 9, None, 1, 60), Report(1, false, NO_CLIENT, 2)];
    assert run[1..] == [run[1], run[2]] && run[1..][1..] == [run[2]] && run[1..][1..][1..] == [];
    assert ValidRun(s3, []) && ValidRun(s2, [run[2]]) && ValidRun(s1, run[1..]);
    assert Exec(s2, [run[2]]) == s3;
    assert Exec(s1, run[1..]) == s3;
    assert InFlight(s3.rows[1]) && InFlight(s3.rows[2]);
  }

  // ---------------------------------------------------------------- the tables, updated in place

  class Tables {
    var rows: map<Id, Message>
    var turns: seq<Id>
    var recent: nat
    var expressed: map<Candidate, int>
    var attempts: seq<Attempt>
    var lastDelivered: Option<int>

    ghost function Value(): Box
      reads this
    {
      Box(rows, turns, recent, expressed, attempts, lastDelivered)
    }

    constructor ()
      ensures Value() == Empty()
    {
      rows, turns, recent, expressed, attempts, lastDelivered := map[], [], 0, map[], [], None;
    }

    // An UPDATE without any condition on the old status; it keeps the stamps it is not given, but
    // always overwrites the error.
    method SetStatus(id: Id, status: Status, delivered: Option<int>, error: Option<string>, supersededBy: Option<Id>)
      modifies `rows
      ensures rows == if id !in old(rows) then old(rows)
                      else var m := old(rows)[id];
                           old(rows)[id := m.(status := status, error := error,
                                              delivered := if delivered.Some? then delivered else m.delivered,
                                              supersededBy := if supersededBy.Some? then supersededBy else m.supersededBy)]
    {
      if id !in rows { return; }
      var m := rows[id].(status := status, error := error);
      if delivered.Some? { m := m.(delivered := delivered); }
      if supersededBy.Some? { m := m.(supersededBy := supersededBy); }
      rows := rows[id := m];
    }

    method SupersedePendingProactive(channel: Id, id: Id)
      modifies `rows
      ensures rows == SupersededBy(old(rows), channel, id)
    {
      ghost var was := rows;
      var left := set m | m in rows && InFlight(rows[m]);
      while left != {}
        invariant left <= rows.Keys == was.Keys
        invariant forall m :: m in was && InFlight(was[m]) && m !in left ==> rows[m] == SupersededBy(was, channel, id)[m]
        invariant forall m :: m in was && (m in left || !InFlight(was[m])) ==> rows[m] == was[m]
        decreases left
      {
        var m :| m in left;
        if rows[m].channel == channel && m != id { SetStatus(m, SUPERSEDED, None, None, Some(id)); }
        left := left - {m};
      }
    }

    method CreateOutbound(id: Id, kind: Kind, channel: Id, candidate: Option<Candidate>, now: int, ttl: int)
      requires id !in rows
      modifies `rows
      ensures Value() == Create(old(Value()), id, kind, channel, candidate, now, ttl)
    {
      var expires := None;
      if kind.PROACTIVE? { expires := Some(now + ttl); }
      rows := rows[id := Message(kind, channel, PENDING_DELIVERY, expires, candidate, None, None, None)];
      if kind.PROACTIVE? { SupersedePendingProactive(channel, id); }
    }

    method HandleDeliveryResult(id: Id, delivered: bool, error: string, at: int)
      modifies this
      ensures Value() == Result(old(Value()), id, delivered, error, at)
    {
      if id !in rows { return; }
      var message := rows[id];
      if message.status == DELIVERED { return; }
      attempts := attempts + [Attempt(id, delivered, at, error)];
      if !delivered {
        HandleUndelivered(id, error);
        return;
      }
      SetStatus(id, DELIVERED, Some(at), None, None);
      turns := turns + [id];
      lastDelivered := Some(at);
      if message.kind == PROACTIVE {
        recent := recent + 1;
        if message.candidate.Some? { expressed := expressed[message.candidate.value := at]; }
      }
    }

    method HandleUndelivered(id: Id, error: string)
      requires id in rows
      modifies `rows
      ensures rows == old(rows)[id := old(rows)[id].(status := Held(old(rows)[id], error), error := Some(error))]
    {
      if rows[id].kind == PROACTIVE {
        if IsDrop(error) {
          var status := if StartsWith(error, "superseded") || StartsWith(error, "coalesced") then SUPERSEDED else EXPIRED;
          SetStatus(id, status, None, Some(error), None);
        } else if error == NO_CLIENT {
          SetStatus(id, PENDING_DELIVERY, None, Some(error), None);
        } else {
          SetStatus(id, FAILED, None, Some(error), None);
        }
      } else {
        SetStatus(id, PENDING_DELIVERY, None, Some(error), None);
      }
    }

    method ExpireStaleProactive(now: int)
      modifies `rows
      ensures Value() == Expire(old(Value()), now)
    {
      ghost var was := rows;
      var left := set m | m in rows && InFlight(rows[m]);
      while left != {}
        invariant left <= rows.Keys == was.Keys
        invariant forall m :: m in was && InFlight(was[m]) && m !in left ==> rows[m] == Expire(old(Value()), now).rows[m]
        invariant forall m :: m in was && (m in left || !InFlight(was[m])) ==> rows[m] == was[m]
        decreases left
      {
        var m :| m in left;
        if rows[m].expires.Some? && rows[m].expires.value <= now { SetStatus(m, EXPIRED, None, Some(EXPIRED_ON_RECOVERY), None); }
        left := left - {m};
      }
    }

    method InFlightCandidates() returns (candidates: set<Candidate>)
      ensures forall c :: c in candidates <==> exists m :: m in rows && InFlight(rows[m]) && rows[m].candidate == Some(c)
    {
      candidates := set m | m in rows && InFlight(rows[m]) && rows[m].candidate.Some? :: rows[m].candidate.value;
    }
  }
}
