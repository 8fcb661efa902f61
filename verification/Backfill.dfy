// Summary-embedding jobs: one for each topic at a time, and which topics a backfill reaches.
module Backfill {
  import opened Base

  datatype Status = PENDING | RUNNING | COMPLETED | FAILED_TERMINAL
  datatype Job = Job(topic: Id, status: Status)

  datatype State = State(
    topics: map<Id, int>,    // live topics, by their last activity
    embedded: set<Id>,
    jobs: map<Id, Job>)

  const MAX_PER_RECONCILE: nat := 200

  predicate IsActive(j: Job) { j.status.PENDING? || j.status.RUNNING? }

  predicate HasJob(s: State, t: Id) { exists j | j in s.jobs :: s.jobs[j].topic == t && IsActive(s.jobs[j]) }

  function Missing(s: State): set<Id> { set t | t in s.topics && t !in s.embedded }

  function ActiveTopics(jobs: map<Id, Job>): set<Id> { set j | j in jobs && IsActive(jobs[j]) :: jobs[j].topic }

  // The topics a backfill looks at: the most recently active ones without an embedding.
  ghost predicate Listed(s: State, list: seq<Id>) {
    && Distinct(list) && (forall t :: t in list ==> t in Missing(s))
    && |list| == (if |Missing(s)| < MAX_PER_RECONCILE then |Missing(s)| else MAX_PER_RECONCILE)
    && forall t, u :: t in list && u in Missing(s) && u !in list ==> s.topics[t] >= s.topics[u]
  }

  // One fresh job for each listed topic that has none in flight.
  function Enqueue(jobs: map<Id, Job>, active: set<Id>, list: seq<Id>, ids: seq<Id>): map<Id, Job>
    requires |ids| == |list|
  {
    if list == [] then jobs
    else
      var n := |list| - 1;
      var before := Enqueue(jobs, active, list[..n], ids[..n]);
      if list[n] in active then before else before[ids[n] := Job(list[n], PENDING)]
  }

  datatype Step =
    | NewTopic(t: Id, at: int, job: Id)     // enrichment creates the topic and its job together
    | Touch(t: Id, at: int)
    | Reconcile(list: seq<Id>, ids: seq<Id>)
    | Lease(j: Id)
    | Requeue(j: Id)
    | GiveUp(j: Id)
    | Land(j: Id, merged: bool)             // the result is reduced; a merge deletes the topic

  ghost predicate FreshIds(s: State, ids: seq<Id>) { Distinct(ids) && forall i :: 0 <= i < |ids| ==> ids[i] !in s.jobs }

  ghost predicate Enabled(s: State, step: Step) {
    match step
    case NewTopic(t, _, job) =>
      t !in s.topics && t !in s.embedded && job !in s.jobs && (forall j :: j in s.jobs ==> s.jobs[j].topic != t)
    case Touch(t, _) => t in s.topics
    case Reconcile(list, ids) => Listed(s, list) && |ids| == |list| && FreshIds(s, ids)
    case Lease(j) => j in s.jobs && IsActive(s.jobs[j])
    case Requeue(j) => j in s.jobs && s.jobs[j].status.RUNNING?
    case GiveUp(j) => j in s.jobs && s.jobs[j].status.RUNNING?
    case Land(j, _) => j in s.jobs && s.jobs[j].status.RUNNING?
  }

  function Next(s: State, step: Step): State
    requires Enabled(s, step)
  {
    match step
    case NewTopic(t, at, job) => s.(topics := s.topics[t := at], jobs := s.jobs[job := Job(t, PENDING)])
    case Touch(t, at) => s.(topics := s.topics[t := at])
    case Reconcile(list, ids) => s.(jobs := Enqueue(s.jobs, ActiveTopics(s.jobs), list, ids))
    case Lease(j) => s.(jobs := s.jobs[j := s.jobs[j].(status := RUNNING)])
    case Requeue(j) => s.(jobs := s.jobs[j := s.jobs[j].(status := PENDING)])
    case GiveUp(j) => s.(jobs := s.jobs[j := s.jobs[j].(status := FAILED_TERMINAL)])
    case Land(j, merged) =>
      var t := s.jobs[j].topic;
      var s' := s.(jobs := s.jobs[j := s.jobs[j].(status := COMPLETED)]);
      if t !in s.topics then s'
      else if merged then s'.(topics := s.topics - {t}, embedded := s.embedded - {t})
      else s'.(embedded := s.embedded + {t})
  }

  ghost predicate ValidRun(s: State, run: seq<Step>)
    decreases |run|
  {
    run == [] || (Enabled(s, run[0]) && ValidRun(Next(s, run[0]), run[1..]))
  }

  function Exec(s: State, run: seq<Step>): State
    requires ValidRun(s, run)
    decreases |run|
  {
    if run == [] then s else Exec(Next(s, run[0]), run[1..])
  }

  // ---------------------------------------------------------------- one job per topic

  ghost predicate OneJob(jobs: map<Id, Job>) {
    forall i, j :: i in jobs && j in jobs && IsActive(jobs[i]) && IsActive(jobs[j]) && jobs[i].topic == jobs[j].topic ==> i == j
  }

  ghost predicate Tried(s: State, t: Id) { exists j :: j in s.jobs && s.jobs[j].topic == t && !s.jobs[j].status.COMPLETED? }

  // No topic has two jobs in flight, and embeddings name live topics.
  ghost predicate Inv(s: State) {
    OneJob(s.jobs) && forall t :: t in s.embedded ==> t in s.topics
  }

  // Unless it was created before there were jobs at all, a live topic without an embedding has a
  // job in flight or one that failed for good.
  ghost predicate AllTried(s: State) { forall t :: t in Missing(s) ==> Tried(s, t) }

  // What a backfill adds: every row stays, and the new ones are PENDING jobs of listed topics that
  // had none, one each.
  lemma {:induction false} Enqueued(jobs: map<Id, Job>, active: set<Id>, list: seq<Id>, ids: seq<Id>)
    requires |ids| == |list| && Distinct(list) && Distinct(ids) && forall i :: 0 <= i < |ids| ==> ids[i] !in jobs
    ensures var jobs' := Enqueue(jobs, active, list, ids);
            && (forall j :: j in jobs ==> j in jobs' && jobs'[j] == jobs[j])
            && (forall j :: j in jobs' && j !in jobs ==>
                  exists i :: 0 <= i < |list| && j == ids[i] && list[i] !in active && jobs'[j] == Job(list[i], PENDING))
            && (forall i :: 0 <= i < |list| && list[i] !in active ==> ids[i] in jobs' && jobs'[ids[i]] == Job(list[i], PENDING))
  {
    if list != [] {
      var n := |list| - 1;
      Enqueued(jobs, active, list[..n], ids[..n]);
      var before, jobs' := Enqueue(jobs, active, list[..n], ids[..n]), Enqueue(jobs, active, list, ids);
      assert forall i :: 0 <= i < n ==> ids[..n][i] != ids[n];
      assert ids[n] !in before;
      forall j | j in jobs' && j !in jobs
        ensures exists i :: 0 <= i < |list| && j == ids[i] && list[i] !in active && jobs'[j] == Job(list[i], PENDING)
      {
        if j != ids[n] {
          var i :| 0 <= i < n && j == ids[..n][i] && list[..n][i] !in active && before[j] == Job(list[..n][i], PENDING);
          assert j == ids[i] && list[i] !in active;
        }
      }
      forall i | 0 <= i < |list| && list[i] !in active ensures ids[i] in jobs' && jobs'[ids[i]] == Job(list[i], PENDING) {
        if i < n { assert ids[..n][i] == ids[i] && list[..n][i] == list[i]; }
      }
    }
  }

  lemma ReconcileKeeps(s: State, list: seq<Id>, ids: seq<Id>)
    requires Inv(s) && Enabled(s, Reconcile(list, ids))
    ensures Inv(Next(s, Reconcile(list, ids))) && (AllTried(s) ==> AllTried(Next(s, Reconcile(list, ids))))
  {
    var s' := Next(s, Reconcile(list, ids));
    Enqueued(s.jobs, ActiveTopics(s.jobs), list, ids);
    forall i, j | i in s'.jobs && j in s'.jobs && IsActive(s'.jobs[i]) && IsActive(s'.jobs[j])
                  && s'.jobs[i].topic == s'.jobs[j].topic
      ensures i == j
    {
      assert i in s.jobs ==> s'.jobs[i].topic in ActiveTopics(s.jobs);
      assert j in s.jobs ==> s'.jobs[j].topic in ActiveTopics(s.jobs);
    }
    forall t | AllTried(s) && t in Missing(s') ensures Tried(s', t) {
      assert Tried(s, t);
      var j :| j in s.jobs && s.jobs[j].topic == t && !s.jobs[j].status.COMPLETED?;
      assert s'.jobs[j] == s.jobs[j];
    }
  }

  lemma ChangeKeeps(s: State, j: Id, status: Status)
    requires Inv(s) && j in s.jobs && IsActive(s.jobs[j]) && !status.COMPLETED?
    ensures var s' := s.(jobs := s.jobs[j := s.jobs[j].(status := status)]);
            Inv(s') && (AllTried(s) ==> AllTried(s'))
  {
    var s' := s.(jobs := s.jobs[j := s.jobs[j].(status := status)]);
    forall t | AllTried(s) && t in Missing(s') ensures Tried(s', t) {
      assert Tried(s, t);
      var k :| k in s.jobs && s.jobs[k].topic == t && !s.jobs[k].status.COMPLETED?;
      assert k in s'.jobs && s'.jobs[k].topic == t && !s'.jobs[k].status.COMPLETED?;
    }
  }

  lemma LandKeeps(s: State, j: Id, merged: bool)
    requires Inv(s) && Enabled(s, Land(j, merged))
    ensures Inv(Next(s, Land(j, merged))) && (AllTried(s) ==> AllTried(Next(s, Land(j, merged))))
  {
    var s' := Next(s, Land(j, merged));
    forall t | AllTried(s) && t in Missing(s') ensures Tried(s', t) {
      assert t in Missing(s) && t != s.jobs[j].topic;
      assert Tried(s, t);
      var k :| k in s.jobs && s.jobs[k].topic == t && !s.jobs[k].status.COMPLETED?;
      assert s'.jobs[k] == s.jobs[k];
    }
  }

  lemma NewTopicKeeps(s: State, t: Id, at: int, job: Id)
    requires Inv(s) && Enabled(s, NewTopic(t, at, job))
    ensures Inv(Next(s, NewTopic(t, at, job))) && (AllTried(s) ==> AllTried(Next(s, NewTopic(t, at, job))))
  {
    var s' := Next(s, NewTopic(t, at, job));
    forall u | AllTried(s) && u in Missing(s') ensures Tried(s', u) {
      if u == t {
        assert s'.jobs[job].topic == t;
      } else {
        assert u in Missing(s) && Tried(s, u);
        var k :| k in s.jobs && s.jobs[k].topic == u && !s.jobs[k].status.COMPLETED?;
        assert s'.jobs[k] == s.jobs[k];
      }
    }
  }

  lemma InvNext(s: State, step: Step)
    requires Inv(s) && Enabled(s, step)
    ensures Inv(Next(s, step)) && (AllTried(s) ==> AllTried(Next(s, step)))
  {
    match step
    case NewTopic(t, at, job) => NewTopicKeeps(s, t, at, job);
    case Touch(t, at) =>
      assert Missing(Next(s, step)) == Missing(s);
      assert forall u :: Tried(s, u) ==> Tried(Next(s, step), u);
    case Reconcile(list, ids) => ReconcileKeeps(s, list, ids);
    case Lease(j) => ChangeKeeps(s, j, RUNNING);
    case Requeue(j) => ChangeKeeps(s, j, PENDING);
    case GiveUp(j) => ChangeKeeps(s, j, FAILED_TERMINAL);
    case Land(j, merged) => LandKeeps(s, j, merged);
  }

  // Over any run of enrichments, backfills, retries, restarts and merges.
  lemma {:induction false} OneJobRun(s: State, run: seq<Step>)
    requires Inv(s) && ValidRun(s, run)
    ensures Inv(Exec(s, run)) && (AllTried(s) ==> AllTried(Exec(s, run)))
    decreases |run|
  {
    if run != [] {
      InvNext(s, run[0]);
      OneJobRun(Next(s, run[0]), run[1..]);
    }
  }

  // ---------------------------------------------------------------- whom a backfill reaches

  // After a backfill a topic has a job in flight exactly when it had one or was listed.
  lemma Reached(s: State, list: seq<Id>, ids: seq<Id>, t: Id)
    requires Enabled(s, Reconcile(list, ids))
    ensures HasJob(Next(s, Reconcile(list, ids)), t) <==> HasJob(s, t) || t in list
  {
    var s' := Next(s, Reconcile(list, ids));
    Enqueued(s.jobs, ActiveTopics(s.jobs), list, ids);
    if HasJob(s, t) {
      var j :| j in s.jobs && s.jobs[j].topic == t && IsActive(s.jobs[j]);
      assert s'.jobs[j] == s.jobs[j];
    } else if t in list {
      var i :| 0 <= i < |list| && list[i] == t;
      assert t !in ActiveTopics(s.jobs);
      assert s'.jobs[ids[i]] == Job(t, PENDING);
    }
  }

  // The topics without an embedding that were active strictly later than t, and at least as late.
  function Hotter(s: State, t: Id): set<Id>
    requires t in s.topics
  {
    set u | u in Missing(s) && s.topics[u] > s.topics[t]
  }

  function AsHot(s: State, t: Id): set<Id>
    requires t in s.topics
  {
    set u | u in Missing(s) && u != t && s.topics[u] >= s.topics[t]
  }

  function Members(list: seq<Id>): set<Id> { set t | t in list }

  lemma {:induction false} ListSize(list: seq<Id>)
    requires Distinct(list)
    ensures |Members(list)| == |list|
  {
    if list == [] {
      assert Members(list) == {};
    } else {
      var n := |list| - 1;
      ListSize(list[..n]);
      assert list == list[..n] + [list[n]] && list[n] !in list[..n];
      assert Members(list) == Members(list[..n]) + {list[n]};
    }
  }

  lemma Fits(a: set<Id>, b: set<Id>)
    requires a <= b
    ensures |a| <= |b|
  {
    if a != {} {
      var x :| x in a;
      Fits(a - {x}, b - {x});
    }
  }

  // A backfill passes a topic over whenever as many hotter ones as it takes have no embedding, in
  // flight or failed alike; and reaches it whenever fewer than that are as hot.
  lemma PassedOver(s: State, list: seq<Id>, t: Id)
    requires Listed(s, list) && t in Missing(s)
    ensures |Hotter(s, t)| >= 200 ==> t !in list
    ensures |AsHot(s, t)| < 200 ==> t in list
  {
    var members := Members(list);
    ListSize(list);
    if t in list {
      assert forall u :: u in Hotter(s, t) ==> u in list;
      Fits(Hotter(s, t), members - {t});
      assert |members - {t}| == |members| - 1;
    } else {
      assert forall u :: u in members ==> u in AsHot(s, t);
      Fits(members, AsHot(s, t));
      Fits(members + {t}, Missing(s));
      assert |members + {t}| == |members| + 1;
    }
  }

  // ---------------------------------------------------------------- the remainder, over runs

  // Topic t has no embedding, and neither have as many hotter ones as a backfill takes.
  predicate Crowded(s: State, t: Id) { t in Missing(s) && |Hotter(s, t)| >= MAX_PER_RECONCILE }

  ghost predicate StaysCrowded(s: State, run: seq<Step>, t: Id)
    requires ValidRun(s, run)
    decreases |run|
  {
    Crowded(s, t) && (run == [] || StaysCrowded(Next(s, run[0]), run[1..], t))
  }

  predicate NeverListed(run: seq<Step>, t: Id) { forall k :: 0 <= k < |run| && run[k].Reconcile? ==> t !in run[k].list }

  // Only a new topic or a backfill that lists it gives a topic a job.
  lemma JobNext(s: State, step: Step, t: Id)
    requires Enabled(s, step) && t in s.topics && !HasJob(s, t) && (step.Reconcile? ==> t !in step.list)
    ensures !HasJob(Next(s, step), t)
  {
    if step.Reconcile? { Reached(s, step.list, step.ids, t); }
  }

  // No backfill picks up the remainder while the hotter topics stay without an embedding: whatever
  // the run, topic t is never listed and never has a job.
  lemma {:induction false} PassedOverRun(s: State, run: seq<Step>, t: Id)
    requires ValidRun(s, run) && StaysCrowded(s, run, t) && !HasJob(s, t)
    ensures NeverListed(run, t)
    ensures t in Missing(Exec(s, run)) && !HasJob(Exec(s, run), t)
    decreases |run|
  {
    if run != [] {
      if run[0].Reconcile? { PassedOver(s, run[0].list, t); }
      JobNext(s, run[0], t);
      PassedOverRun(Next(s, run[0]), run[1..], t);
      assert forall k :: 1 <= k < |run| ==> run[k] == run[1..][k - 1];
    }
  }

  // Steps that neither embed, delete nor touch a topic.
  predicate LeavesTopics(step: Step) { !step.Touch? && !step.Land? }

  lemma CrowdedNext(s: State, step: Step, t: Id)
    requires Crowded(s, t) && Enabled(s, step) && LeavesTopics(step)
    ensures Crowded(Next(s, step), t)
  {
    var s' := Next(s, step);
    assert forall u :: u in Missing(s) ==> u in Missing(s') && s'.topics[u] == s.topics[u];
    Fits(Hotter(s, t), Hotter(s', t));
  }

  lemma {:induction false} CrowdedRun(s: State, run: seq<Step>, t: Id)
    requires Crowded(s, t) && ValidRun(s, run) && forall k :: 0 <= k < |run| ==> LeavesTopics(run[k])
    ensures StaysCrowded(s, run, t)
    decreases |run|
  {
    hide Crowded, Next, Enabled;
    if run != [] {
      CrowdedNext(s, run[0], t);
      CrowdedRun(Next(s, run[0]), run[1..], t);
    }
  }

  function Empty(): State { State(map[], {}, map[]) }

  function Topics(n: nat): map<Id, int> { if n == 0 then map[] else Topics(n - 1)[n - 1 := n - 1] }

  function FailedJobs(n: nat): map<Id, Job> {
    if n == 0 then map[] else FailedJobs(n - 1)[n - 1 := Job(n - 1, FAILED_TERMINAL)]
  }

  // n topics, each active later than the one before, and each with a job that failed for good.
  function AllFailed(n: nat): State { State(Topics(n), {}, FailedJobs(n)) }

  lemma {:induction false} TopicsShape(n: nat)
    ensures |Topics(n).Keys| == n && forall t: Id :: (t in Topics(n) <==> t < n) && (t in Topics(n) ==> Topics(n)[t] == t)
  {
    if n > 0 {
      TopicsShape(n - 1);
      assert Topics(n).Keys == Topics(n - 1).Keys + {n - 1};
    }
  }

  lemma {:induction false} JobsShape(n: nat)
    ensures forall j: Id :: (j in FailedJobs(n) <==> j < n) && (j in FailedJobs(n) ==> FailedJobs(n)[j] == Job(j, FAILED_TERMINAL))
  {
    if n > 0 { JobsShape(n - 1); }
  }

  lemma {:induction false} Extend(s: State, run: seq<Step>, step: Step)
    requires ValidRun(s, run) && Enabled(Exec(s, run), step)
    ensures ValidRun(s, run + [step]) && Exec(s, run + [step]) == Next(Exec(s, run), step)
    decreases |run|
  {
    hide Next, Enabled;
    if run == [] {
      assert run + [step] == [step];
    } else {
      Extend(Next(s, run[0]), run[1..], step);
      assert (run + [step])[1..] == run[1..] + [step];
    }
  }

  // Topic n is created, its job leased, and given up.
  lemma FailsOne(n: nat)
    ensures var s := AllFailed(n);
            && Enabled(s, NewTopic(n, n, n)) && Enabled(Next(s, NewTopic(n, n, n)), Lease(n))
            && Enabled(Next(Next(s, NewTopic(n, n, n)), Lease(n)), GiveUp(n))
            && Next(Next(Next(s, NewTopic(n, n, n)), Lease(n)), GiveUp(n)) == AllFailed(n + 1)
  {
    TopicsShape(n);
    JobsShape(n);
    var done := Next(Next(Next(AllFailed(n), NewTopic(n, n, n)), Lease(n)), GiveUp(n));
    assert done.topics == Topics(n + 1) && done.jobs == FailedJobs(n + 1);
  }

  lemma {:induction false} Builds(n: nat) returns (run: seq<Step>)
    ensures ValidRun(Empty(), run) && Exec(Empty(), run) == AllFailed(n)
  {
    if n == 0 { return []; }
    run := Builds(n - 1);
    FailsOne(n - 1);
    hide Next, Enabled, AllFailed;
    Extend(Empty(), run, NewTopic(n - 1, n - 1, n - 1));
    run := run + [NewTopic(n - 1, n - 1, n - 1)];
    Extend(Empty(), run, Lease(n - 1));
    run := run + [Lease(n - 1)];
    Extend(Empty(), run, GiveUp(n - 1));
    run := run + [GiveUp(n - 1)];
  }

  lemma ColdestCrowded(n: nat)
    requires n > MAX_PER_RECONCILE
    ensures Crowded(AllFailed(n), 0) && !HasJob(AllFailed(n), 0)
  {
    TopicsShape(n);
    JobsShape(n);
    hide Topics, FailedJobs;
    var s := AllFailed(n);
    assert Hotter(s, 0) == s.topics.Keys - {0};
  }

  // The remainder is real: from the empty store, any number of topics past what a backfill takes, all their
  // jobs given up. However often a backfill runs, jobs are leased and fail again and new topics
  // come, the coldest topic never has a job again, although nothing of it is in flight.
  lemma StarvedForGood(n: nat) returns (run: seq<Step>)
    requires n > 200
    ensures ValidRun(Empty(), run) && 0 in Missing(Exec(Empty(), run)) && !HasJob(Exec(Empty(), run), 0)
    ensures forall more :: ValidRun(Exec(Empty(), run), more) && (forall k :: 0 <= k < |more| ==> LeavesTopics(more[k])) ==>
              NeverListed(more, 0) && !HasJob(Exec(Exec(Empty(), run), more), 0)
  {
    run := Builds(n);
    var s := AllFailed(n);
    ColdestCrowded(n);
    hide AllFailed;
    forall more | ValidRun(s, more) && forall k :: 0 <= k < |more| ==> LeavesTopics(more[k])
      ensures NeverListed(more, 0) && !HasJob(Exec(s, more), 0)
    {
      CrowdedRun(s, more, 0);
      PassedOverRun(s, more, 0);
    }
  }

  // ---------------------------------------------------------------- the handler

  class Jobs {
    var topics: map<Id, int>
    var embedded: set<Id>
    var jobs: map<Id, Job>

    ghost function Value(): State
      reads this
    {
      State(topics, embedded, jobs)
    }

    constructor ()
      ensures Value() == Empty() && Inv(Value()) && AllTried(Value())
    {
      topics, embedded, jobs := map[], {}, map[];
    }

    method HandleReconcile(list: seq<Id>, ids: seq<Id>) returns (enqueued: nat)
      requires Enabled(Value(), Reconcile(list, ids))
      modifies `jobs
      ensures Value() == Next(old(Value()), Reconcile(list, ids))
      ensures enqueued == |Members(list) - ActiveTopics(old(jobs))|
    {
      hide Enqueue, Members, ActiveTopics, FreshIds, Missing;
      var inFlight := ActiveTopics(jobs);
      ghost var was := jobs;
      enqueued := 0;
      NothingListed(was, inFlight, list, ids);
      for i := 0 to |list|
        invariant jobs == Enqueue(was, inFlight, list[..i], ids[..i])
        invariant enqueued == |Members(list[..i]) - inFlight|
      {
        OneMore(was, inFlight, list, ids, i);
        if list[i] in inFlight { continue; }
        jobs := jobs[ids[i] := Job(list[i], PENDING)];
        enqueued := enqueued + 1;
      }
      assert list[..|list|] == list && ids[..|list|] == ids;
    }
  }

  lemma NothingListed(jobs: map<Id, Job>, active: set<Id>, list: seq<Id>, ids: seq<Id>)
    requires |ids| == |list|
    ensures Enqueue(jobs, active, list[..0], ids[..0]) == jobs && |Members(list[..0]) - active| == 0
  {
    assert Members(list[..0]) == {};
  }

  lemma OneMoreJob(jobs: map<Id, Job>, active: set<Id>, list: seq<Id>, ids: seq<Id>, t: Id, id: Id)
    requires |ids| == |list|
    ensures var before := Enqueue(jobs, active, list, ids);
            Enqueue(jobs, active, list + [t], ids + [id]) == if t in active then before else before[id := Job(t, PENDING)]
  {
    assert (list + [t])[..|list|] == list && (ids + [id])[..|ids|] == ids;
  }

  lemma OneMoreMember(active: set<Id>, list: seq<Id>, t: Id)
    requires t !in list
    ensures |Members(list + [t]) - active| == |Members(list) - active| + if t in active then 0 else 1
  {
    assert Members(list + [t]) - active == (Members(list) - active) + if t in active then {} else {t};
  }

  // One more listed topic: skipped when it has a job in flight, otherwise counted and enqueued.
  lemma OneMore(jobs: map<Id, Job>, active: set<Id>, list: seq<Id>, ids: seq<Id>, i: nat)
    requires |ids| == |list| && i < |list| && Distinct(list)
    ensures var before, after := Enqueue(jobs, active, list[..i], ids[..i]), Enqueue(jobs, active, list[..i + 1], ids[..i + 1]);
            after == if list[i] in active then before else before[ids[i] := Job(list[i], PENDING)]
    ensures |Members(list[..i + 1]) - active| == |Members(list[..i]) - active| + if list[i] in active then 0 else 1
  {
    hide Enqueue, Members;
    assert list[..i + 1] == list[..i] + [list[i]] && ids[..i + 1] == ids[..i] + [ids[i]];
    OneMoreJob(jobs, active, list[..i], ids[..i], list[i], ids[i]);
    assert list[i] !in list[..i];
    OneMoreMember(active, list[..i], list[i]);
  }
}
