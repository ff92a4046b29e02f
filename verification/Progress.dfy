/**
 Termination.  Every step that is not a user's lowers a measure of the whole system: what the jobs
 still have to do, and how far the hosts are behind.
 */
module Progress {
  import opened Entities
  import opened RaftApp
  import opened RaftAppInvariants
  import opened Controller
  import opened Cluster
  import opened ClusterInvariant
  import opened ClusterSteps
  import opened ClusterCommit
  import opened ClusterTheorems
  import opened Traffic

  // --- Sums. ---

  function Sum(a: seq<int>): int {
    if a == [] then 0 else a[0] + Sum(a[1..])
  }

  lemma {:induction false} SumRises(a: seq<int>, b: seq<int>, d: nat)
    requires |a| == |b| && forall i :: 0 <= i < |a| ==> b[i] <= a[i] + d
    ensures Sum(b) <= Sum(a) + d * |a|
  {
    if a != [] {
      SumRises(a[1..], b[1..], d);
      assert d * |a| == d + d * |a[1..]|;
    }
  }

  lemma {:induction false} SumDrops(a: seq<int>, b: seq<int>, i: nat, d: nat)
    requires |a| == |b| && i < |a| && forall j :: 0 <= j < |a| ==> b[j] <= a[j]
    requires b[i] + d <= a[i]
    ensures Sum(b) + d <= Sum(a)
  {
    if i == 0 {
      SumRises(a[1..], b[1..], 0);
    } else {
      SumDrops(a[1..], b[1..], i - 1, d);
    }
  }

  lemma {:induction false} SumIsNotNegative(a: seq<int>)
    requires forall i :: 0 <= i < |a| ==> a[i] >= 0
    ensures Sum(a) >= 0
  {
    if a != [] { SumIsNotNegative(a[1..]); }
  }

  // --- The measure. ---

  // Steps that a job may still need.
  function JobWork(s: Cluster, k: JobKey): int {
    if k in s.past && k in s.store.jobs then Potential(Steps, s.nodes, s.store.jobs[k], s.past[k]) else 0
  }

  // Log entries to apply, events to take, and a publisher that waits.
  function Lag(s: Cluster, h: Host): int {
    if h in s.nodes then
      var n := s.nodes[h];
      |s.log| - n.applied + |s.events| - n.handled + if n.consumer.Confirming? || n.consumer.Reporting? then 1 else 0
    else 0
  }

  function JobWorks(s: Cluster, keys: seq<JobKey>): seq<int> {
    seq(|keys|, i requires 0 <= i < |keys| => JobWork(s, keys[i]))
  }

  function Lags(s: Cluster, hosts: seq<Host>): seq<int> {
    seq(|hosts|, i requires 0 <= i < |hosts| => Lag(s, hosts[i]))
  }

  function Work(s: Cluster, keys: seq<JobKey>): int {
    |s.flight| + Sum(JobWorks(s, keys))
  }

  // `hosts` and `keys` list the nodes and the jobs.
  function Measure(s: Cluster, hosts: seq<Host>, keys: seq<JobKey>): int {
    Work(s, keys) * (3 * |hosts| + 1) + Sum(Lags(s, hosts))
  }

  // A step either does some of the work, while the log and the events grow by at most three in
  // all, or lets a host catch up.
  ghost predicate Works(s: Cluster, t: Cluster, keys: seq<JobKey>) {
    Work(t, keys) + 1 <= Work(s, keys) && forall h :: Lag(t, h) <= Lag(s, h) + 3
  }

  ghost predicate CatchesUp(s: Cluster, t: Cluster, keys: seq<JobKey>, h: Host) {
    Work(t, keys) <= Work(s, keys) && (forall g :: Lag(t, g) <= Lag(s, g)) && Lag(t, h) + 1 <= Lag(s, h)
  }

  lemma WorkLowersMeasure(s: Cluster, t: Cluster, hosts: seq<Host>, keys: seq<JobKey>)
    requires Works(s, t, keys)
    ensures Measure(t, hosts, keys) < Measure(s, hosts, keys)
  {
    SumRises(Lags(s, hosts), Lags(t, hosts), 3);
    var c := 3 * |hosts| + 1;
    Less(Work(t, keys), Work(s, keys), c);
  }

  lemma Less(a: int, b: int, c: nat)
    requires a + 1 <= b
    ensures a * c + c <= b * c
  {
    assert (b - a - 1) * c >= 0;
    assert b * c == a * c + c + (b - a - 1) * c;
  }

  lemma CatchingUpLowersMeasure(s: Cluster, t: Cluster, hosts: seq<Host>, keys: seq<JobKey>, h: Host)
    requires CatchesUp(s, t, keys, h) && h in hosts
    ensures Measure(t, hosts, keys) < Measure(s, hosts, keys)
  {
    var i :| 0 <= i < |hosts| && hosts[i] == h;
    SumDrops(Lags(s, hosts), Lags(t, hosts), i, 1);
    var c := 3 * |hosts| + 1;
    if Work(t, keys) < Work(s, keys) {
      Less(Work(t, keys), Work(s, keys), c);
    }
  }

  // --- What single steps do to the work. ---

  lemma WorkByRounds(s: Cluster, t: Cluster, k: JobKey, d: nat)
    requires k in s.past && k in s.store.jobs && k in t.past && k in t.store.jobs
    requires SameJob(s.store.jobs[k], t.store.jobs[k])
    requires forall h ::
               TaskLeft(Steps, t.nodes, s.store.jobs[k].key, h) <= TaskLeft(Steps, s.nodes, s.store.jobs[k].key, h)
    requires var n := |s.store.jobs[k].order|;
             RoundsLeft(Steps, t.past[k].token, n - |t.past[k].finished|) + d
               <= RoundsLeft(Steps, s.past[k].token, n - |s.past[k].finished|)
    ensures JobWork(t, k) + d <= JobWork(s, k)
  {
    TasksLeftMonotone(Steps, s.nodes, t.nodes, s.store.jobs[k].key, s.store.jobs[k].order);
  }

  lemma WorkByTask(s: Cluster, t: Cluster, k: JobKey, h: Host, d: nat)
    requires k in s.past && k in s.store.jobs && k in t.past && k in t.store.jobs
    requires SameJob(s.store.jobs[k], t.store.jobs[k]) && s.store.jobs[k].key == k
    requires forall g :: TaskLeft(Steps, t.nodes, k, g) <= TaskLeft(Steps, s.nodes, k, g)
    requires h in s.store.jobs[k].order && TaskLeft(Steps, t.nodes, k, h) + d <= TaskLeft(Steps, s.nodes, k, h)
    requires t.past[k].token == s.past[k].token && t.past[k].finished == s.past[k].finished
    ensures JobWork(t, k) + d <= JobWork(s, k)
  {
    TasksLeftDrops(Steps, s.nodes, t.nodes, k, s.store.jobs[k].order, h, d);
  }

  lemma TotalWorkDrops(s: Cluster, t: Cluster, keys: seq<JobKey>, k: JobKey, d: nat)
    requires forall j :: JobWork(t, j) <= JobWork(s, j)
    requires k in keys && JobWork(t, k) + d <= JobWork(s, k)
    ensures Sum(JobWorks(t, keys)) + d <= Sum(JobWorks(s, keys))
  {
    var i :| 0 <= i < |keys| && keys[i] == k;
    SumDrops(JobWorks(s, keys), JobWorks(t, keys), i, d);
  }

  lemma TotalWorkStays(s: Cluster, t: Cluster, keys: seq<JobKey>)
    requires forall j :: JobWork(t, j) <= JobWork(s, j)
    ensures Sum(JobWorks(t, keys)) <= Sum(JobWorks(s, keys))
  {
    SumRises(JobWorks(s, keys), JobWorks(t, keys), 0);
  }

  lemma FlightGrows(m: map<nat, Command>, id: nat, c: Command)
    requires id !in m
    ensures |m[id := c]| == |m| + 1
  {
    assert m[id := c].Keys == m.Keys + {id};
    assert |m.Keys| == |m| && |m[id := c].Keys| == |m[id := c]|;
  }

  lemma FlightShrinks(m: map<nat, Command>, id: nat)
    requires id in m
    ensures |m - {id}| == |m| - 1
  {
    assert (m - {id}).Keys == m.Keys - {id};
    assert |m.Keys| == |m| && |(m - {id}).Keys| == |m - {id}|;
  }

  // Everything is filed under its own key.
  ghost predicate Tidy(s: Cluster) {
    Filed(s.store) && s.past.Keys == s.store.jobs.Keys
  }

  // A configuration task of job k at host h gets to `task`.
  ghost predicate TaskGoesOn(s: Cluster, t: Cluster, h: Host, k: JobKey, task: Task) {
    && h in s.nodes && k in s.nodes[h].tasks && t.nodes == SetTask(s, h, k, task)
    && k in s.past && k in t.past && t.store == s.store && t.past == s.past[k := t.past[k]]
    && t.past[k].token == s.past[k].token && t.past[k].finished == s.past[k].finished
  }

  // The consumer of host h does something about job k.
  ghost predicate ConsumerGoesOn(s: Cluster, t: Cluster, h: Host, k: JobKey) {
    && h in s.nodes && h in t.nodes && t.nodes == s.nodes[h := t.nodes[h]] && t.nodes[h].tasks == s.nodes[h].tasks
    && k in s.past && k in t.past && t.store == s.store && t.past == s.past[k := t.past[k]]
    && t.past[k].finished == s.past[k].finished
  }

  lemma TaskDoesWork(s: Cluster, t: Cluster, h: Host, k: JobKey, task: Task, d: nat, keys: seq<JobKey>)
    requires Tidy(s) && TaskGoesOn(s, t, h, k, task) && h in s.store.jobs[k].order && k in keys
    requires TaskLeft(Steps, t.nodes, k, h) + d <= TaskLeft(Steps, s.nodes, k, h)
    ensures Sum(JobWorks(t, keys)) + d <= Sum(JobWorks(s, keys))
  {
    TaskMoves(Steps, s, t, h, k, task);
    forall j | j in s.past && j != k ensures JobWork(t, j) <= JobWork(s, j) { WorkByRounds(s, t, j, 0); }
    WorkByTask(s, t, k, h, d);
    TotalWorkDrops(s, t, keys, k, d);
  }

  lemma ConsumerDoesWork(s: Cluster, t: Cluster, h: Host, k: JobKey, d: nat, keys: seq<JobKey>)
    requires Tidy(s) && ConsumerGoesOn(s, t, h, k) && k in keys
    requires var rounds := |s.store.jobs[k].order| - |s.past[k].finished|;
             RoundsLeft(Steps, t.past[k].token, rounds) + d <= RoundsLeft(Steps, s.past[k].token, rounds)
    ensures Sum(JobWorks(t, keys)) + d <= Sum(JobWorks(s, keys))
  {
    forall j | j in s.past && j != k ensures JobWork(t, j) <= JobWork(s, j) { WorkByRounds(s, t, j, 0); }
    WorkByRounds(s, t, k, d);
    TotalWorkDrops(s, t, keys, k, d);
  }

  lemma AnnounceWorks(s: Cluster, t: Cluster, h: Host, k: JobKey, keys: seq<JobKey>)
    requires Tidy(s) && h in s.nodes && k in s.nodes[h].tasks && s.nodes[h].tasks[k].Spawned? &&
             t == DoAnnounce(s, h, k)
    requires k in s.past && h in s.store.jobs[k].order && k in keys && s.next !in s.flight
    ensures Works(s, t, keys)
  {
    TaskDoesWork(s, t, h, k, Announcing(s.next), 2, keys);
    FlightGrows(s.flight, s.next, ConfigurationUpdate(k, h, ConfigurationRunning));
  }

  lemma ProceedWorks(s: Cluster, t: Cluster, h: Host, k: JobKey, keys: seq<JobKey>)
    requires Tidy(s) && h in s.nodes && k in s.nodes[h].tasks && s.nodes[h].tasks[k].Announcing? &&
             t == DoProceed(s, h, k)
    requires k in s.past && h in s.store.jobs[k].order && k in keys
    ensures Works(s, t, keys)
  {
    assert t.past == s.past[k := t.past[k]];
    TaskDoesWork(s, t, h, k, Executing, 1, keys);
  }

  lemma ReportWorks(s: Cluster, t: Cluster, h: Host, k: JobKey, result: Result, keys: seq<JobKey>)
    requires Tidy(s) && h in s.nodes && k in s.nodes[h].tasks && s.nodes[h].tasks[k].Executing?
    requires t == DoReport(s, h, k, result)
    requires k in s.past && h in s.store.jobs[k].order && k in keys && s.next !in s.flight
    ensures Works(s, t, keys)
  {
    TaskDoesWork(s, t, h, k, Reported(s.next), 2, keys);
    FlightGrows(s.flight, s.next, ConfigurationUpdate(k, h, ConfigurationVerdict(result)));
  }

  lemma ConfirmWorks(s: Cluster, t: Cluster, h: Host, k: JobKey, keys: seq<JobKey>)
    requires Tidy(s) && h in s.nodes && s.nodes[h].consumer == Idle && t == DoConfirm(s, h, k)
    requires k in s.past && s.past[k].token.Triggered? && k in keys && s.next !in s.flight
    ensures Works(s, t, keys)
  {
    ConsumerDoesWork(s, t, h, k, 2, keys);
    FlightGrows(s.flight, s.next, RestartConfirmation(k));
  }

  lemma PrepareCatchesUp(s: Cluster, t: Cluster, h: Host, k: JobKey, keys: seq<JobKey>)
    requires Tidy(s) && h in s.nodes && s.nodes[h].consumer == Idle && t == DoPrepare(s, h, k)
    requires k in s.past && s.past[k].token.Permission? && k in keys && s.next !in s.flight
    ensures CatchesUp(s, t, keys, h)
  {
    ConsumerDoesWork(s, t, h, k, 1, keys);
    FlightGrows(s.flight, s.next, RestartServiceUpdate(k, h, DeploymentRestarting));
  }

  lemma PassingCatchesUp(s: Cluster, t: Cluster, h: Host, keys: seq<JobKey>)
    requires Tidy(s) && h in s.nodes && s.nodes[h].handled < |s.events| && s.nodes[h].consumer == Idle
    requires t == DoHandle(s, h) && (Answer(s, h).Ignore? || Answer(s, h).Configure?)
    ensures CatchesUp(s, t, keys, h)
  {
    forall j | j in s.past ensures JobWork(t, j) <= JobWork(s, j) { WorkByRounds(s, t, j, 0); }
    TotalWorkStays(s, t, keys);
  }

  lemma ReturnWorks(s: Cluster, t: Cluster, h: Host, k: JobKey, keys: seq<JobKey>)
    requires Tidy(s) && h in s.nodes && s.nodes[h].consumer.Preparing? && s.nodes[h].consumer.key == k
    requires t == DoReturn(s, h) && k in s.past && s.past[k].token == Prepares(h) && k in keys
    ensures Works(s, t, keys)
  {
    ConsumerDoesWork(s, t, h, k, 1, keys);
  }

  lemma ReturnCatchesUp(s: Cluster, t: Cluster, h: Host, keys: seq<JobKey>)
    requires Tidy(s) && h in s.nodes && (s.nodes[h].consumer.Confirming? || s.nodes[h].consumer.Reporting?)
    requires t == DoReturn(s, h)
    ensures CatchesUp(s, t, keys, h)
  {
    forall j | j in s.past ensures JobWork(t, j) <= JobWork(s, j) { WorkByRounds(s, t, j, 0); }
    TotalWorkStays(s, t, keys);
  }

  lemma FinishWorks(s: Cluster, t: Cluster, h: Host, k: JobKey, result: Result, keys: seq<JobKey>)
    requires Tidy(s) && h in s.nodes && s.nodes[h].consumer == InDeploy(k) && t == DoFinish(s, h, result)
    requires k in s.past && s.past[k].token == Runs(h) && k in keys && s.next !in s.flight
    ensures Works(s, t, keys)
  {
    ConsumerDoesWork(s, t, h, k, 2, keys);
    FlightGrows(s.flight, s.next, RestartServiceUpdate(k, h, DeploymentVerdict(result)));
  }

  lemma ApplyCatchesUp(s: Cluster, t: Cluster, h: Host, keys: seq<JobKey>)
    requires Tidy(s) && h in s.nodes && t == DoApply(s, h)
    ensures CatchesUp(s, t, keys, h)
  {
    forall j | j in s.past ensures JobWork(t, j) <= JobWork(s, j) { WorkByRounds(s, t, j, 0); }
    TotalWorkStays(s, t, keys);
  }

  // A lost command may take a token with it, and the work that was still to come.
  lemma LoseWorks(s: Cluster, t: Cluster, id: nat, keys: seq<JobKey>)
    requires Tidy(s) && id in s.flight && t == DoLose(s, id)
    requires forall k :: k in s.past ==>
               RoundsLeft(Steps, s.past[k].token, |s.store.jobs[k].order| - |s.past[k].finished|) >= 0
    ensures Works(s, t, keys)
  {
    forall j | j in s.past ensures JobWork(t, j) <= JobWork(s, j) { WorkByRounds(s, t, j, 0); }
    TotalWorkStays(s, t, keys);
    FlightShrinks(s.flight, id);
  }

  // --- Commits. ---

  // A command is gone from the flight; at most one log entry and two events are new.
  lemma CommitWorks(s: Cluster, t: Cluster, id: nat, keys: seq<JobKey>)
    requires id in s.flight && t.flight == s.flight - {id} && t.nodes == s.nodes
    requires |t.log| == |s.log| + 1 && |t.events| <= |s.events| + 2
    requires forall k :: JobWork(t, k) <= JobWork(s, k)
    ensures Works(s, t, keys)
  {
    FlightShrinks(s.flight, id);
    TotalWorkStays(s, t, keys);
  }

  lemma CommitGrowsLittle(s: Cluster, t: Cluster, id: nat)
    requires id in s.flight && t == DoCommit(s, id)
    ensures |t.log| == |s.log| + 1 && |t.events| <= |s.events| + 2
  {
  }

  lemma CommitKeepsJobWork(s: Cluster, t: Cluster, id: nat, k: JobKey)
    requires Inv(s) && id in s.flight && !s.flight[id].SubmitJob? && t == DoCommit(s, id)
    ensures JobWork(t, k) <= JobWork(s, k)
  {
    var c := s.flight[id];
    CommitIsCommitted(s, t, id);
    if k in s.past {
      CommitKeepsOtherJobs(s, t, id);
      JobIsKnown(s, k);
      if c.key == k {
        assert FlightToken(s, id);
        if c.ConfigurationUpdate? && |Apply(s.store, c).events| == 2 {
          AnnouncementFindsBarrier(s, id);
        }
        CommitKeepsRounds(Steps, s, t, id, k);
      }
      WorkByRounds(s, t, k, 0);
    } else {
      CommitKeepsKeys(s, t, id);
      assert k !in t.past;
    }
  }

  // --- Steps of the system itself: users neither submit nor cancel, and no submission commits. ---

  predicate Internal(s: Cluster, a: Action) {
    Enabled(s, a) && !a.Submits? && !a.Cancels? && (a.Commits? ==> !s.flight[a.id].SubmitJob?)
  }

  predicate InternalRun(s: Cluster, actions: seq<Action>, t: Cluster)
    decreases |actions|
  {
    if actions == [] then s == t
    else Internal(s, actions[0]) && InternalRun(Do(s, actions[0]), actions[1..], t)
  }

  // `hosts` and `keys` list what there is.
  ghost predicate Lists(s: Cluster, hosts: seq<Host>, keys: seq<JobKey>) {
    Elements(hosts) == s.nodes.Keys && Elements(keys) == s.past.Keys
  }

  lemma HandleLowersMeasure(s: Cluster, t: Cluster, h: Host, hosts: seq<Host>, keys: seq<JobKey>)
    requires Inv(s) && CanHandle(s, h) && t == DoHandle(s, h) && Lists(s, hosts, keys)
    ensures Measure(t, hosts, keys) < Measure(s, hosts, keys)
  {
    var e := s.nodes[h].handled;
    assert EventToken(s, e);
    assert h in Elements(hosts);
    match Answer(s, h) {
      case Confirm(k) =>
        assert k in Elements(keys);
        ConfirmWorks(s, t, h, k, keys);
        WorkLowersMeasure(s, t, hosts, keys);
      case Restart(k) =>
        assert k in Elements(keys);
        PrepareCatchesUp(s, t, h, k, keys);
        CatchingUpLowersMeasure(s, t, hosts, keys, h);
      case _ =>
        PassingCatchesUp(s, t, h, keys);
        CatchingUpLowersMeasure(s, t, hosts, keys, h);
    }
  }

  lemma ReturnLowersMeasure(s: Cluster, t: Cluster, h: Host, hosts: seq<Host>, keys: seq<JobKey>)
    requires Inv(s) && h in s.nodes && !s.nodes[h].consumer.Idle? && !s.nodes[h].consumer.InDeploy?
    requires t == DoReturn(s, h) && Lists(s, hosts, keys)
    ensures Measure(t, hosts, keys) < Measure(s, hosts, keys)
  {
    assert ConsumerToken(s, h);
    if s.nodes[h].consumer.Preparing? {
      var k := s.nodes[h].consumer.key;
      assert k in Elements(keys);
      ReturnWorks(s, t, h, k, keys);
      WorkLowersMeasure(s, t, hosts, keys);
    } else {
      assert h in Elements(hosts);
      ReturnCatchesUp(s, t, h, keys);
      CatchingUpLowersMeasure(s, t, hosts, keys, h);
    }
  }

  lemma CommitLowersMeasure(s: Cluster, t: Cluster, id: nat, hosts: seq<Host>, keys: seq<JobKey>)
    requires Inv(s) && id in s.flight && !s.flight[id].SubmitJob? && t == DoCommit(s, id)
    ensures Measure(t, hosts, keys) < Measure(s, hosts, keys)
  {
    forall k ensures JobWork(t, k) <= JobWork(s, k) { CommitKeepsJobWork(s, t, id, k); }
    CommitGrowsLittle(s, t, id);
    CommitWorks(s, t, id, keys);
    WorkLowersMeasure(s, t, hosts, keys);
  }

  lemma LossLowersMeasure(s: Cluster, t: Cluster, id: nat, hosts: seq<Host>, keys: seq<JobKey>)
    requires Inv(s) && id in s.flight && t == DoLose(s, id)
    ensures Measure(t, hosts, keys) < Measure(s, hosts, keys)
  {
    forall k | k in s.past
      ensures RoundsLeft(Steps, s.past[k].token, |s.store.jobs[k].order| - |s.past[k].finished|) >= 0
    {
      JobIsKnown(s, k);
      RoundsLeftIsNotNegative(Steps, s.store.jobs[k], s.past[k], Speaker(s, s.past[k].token));
    }
    LoseWorks(s, t, id, keys);
    WorkLowersMeasure(s, t, hosts, keys);
  }

  lemma InternalStepLowersMeasure(s: Cluster, t: Cluster, a: Action, hosts: seq<Host>, keys: seq<JobKey>)
    requires Inv(s) && Internal(s, a) && t == Do(s, a) && Lists(s, hosts, keys)
    ensures Measure(t, hosts, keys) < Measure(s, hosts, keys)
  {
    match a {
      case Loses(id) => LossLowersMeasure(s, t, id, hosts, keys);
      case Commits(id) => CommitLowersMeasure(s, t, id, hosts, keys);
      case Applies(h) =>
        assert h in Elements(hosts);
        ApplyCatchesUp(s, t, h, keys);
        CatchingUpLowersMeasure(s, t, hosts, keys, h);
      case Handles(h) => HandleLowersMeasure(s, t, h, hosts, keys);
      case Returns(h) => ReturnLowersMeasure(s, t, h, hosts, keys);
      case Finishes(h, result) =>
        assert ConsumerToken(s, h) && s.nodes[h].consumer.key in Elements(keys);
        FinishWorks(s, t, h, s.nodes[h].consumer.key, result, keys);
        WorkLowersMeasure(s, t, hosts, keys);
      case Announces(h, k) =>
        TaskIsOfItsJob(s, h, k);
        assert k in Elements(keys);
        AnnounceWorks(s, t, h, k, keys);
        WorkLowersMeasure(s, t, hosts, keys);
      case Proceeds(h, k) =>
        TaskIsOfItsJob(s, h, k);
        assert k in Elements(keys);
        ProceedWorks(s, t, h, k, keys);
        WorkLowersMeasure(s, t, hosts, keys);
      case Reports(h, k, result) =>
        TaskIsOfItsJob(s, h, k);
        assert k in Elements(keys);
        ReportWorks(s, t, h, k, result, keys);
        WorkLowersMeasure(s, t, hosts, keys);
    }
  }

  lemma JobWorkIsNotNegative(s: Cluster, k: JobKey)
    requires Inv(s)
    ensures JobWork(s, k) >= 0
  {
    if k in s.past {
      JobIsKnown(s, k);
      RoundsLeftIsNotNegative(Steps, s.store.jobs[k], s.past[k], Speaker(s, s.past[k].token));
    }
  }

  lemma LagIsNotNegative(s: Cluster, h: Host)
    requires Shape(s)
    ensures Lag(s, h) >= 0
  {
    if h in s.nodes { QueuesAreBehind(s, h); }
  }

  lemma SumsAreNotNegative(s: Cluster, hosts: seq<Host>, keys: seq<JobKey>)
    requires (forall k :: JobWork(s, k) >= 0) && (forall h :: Lag(s, h) >= 0)
    ensures Measure(s, hosts, keys) >= 0
  {
    SumIsNotNegative(JobWorks(s, keys));
    SumIsNotNegative(Lags(s, hosts));
    assert Work(s, keys) * (3 * |hosts| + 1) >= 0;
  }

  lemma MeasureIsNotNegative(s: Cluster, hosts: seq<Host>, keys: seq<JobKey>)
    requires Inv(s)
    ensures Measure(s, hosts, keys) >= 0
  {
    forall k ensures JobWork(s, k) >= 0 { JobWorkIsNotNegative(s, k); }
    forall h ensures Lag(s, h) >= 0 { LagIsNotNegative(s, h); }
    SumsAreNotNegative(s, hosts, keys);
  }

  lemma InternalStepKeepsLists(s: Cluster, t: Cluster, a: Action, hosts: seq<Host>, keys: seq<JobKey>)
    requires Inv(s) && Internal(s, a) && t == Do(s, a) && Lists(s, hosts, keys)
    ensures Lists(t, hosts, keys)
  {
    StepKeepsNodes(s, t, a);
    forall k ensures k in t.past <==> k in s.past {
      if k in s.past { StepPays(s, t, a, k); }
      else if k in t.past { NewPastIsSubmitted(s, t, a, k); }
    }
  }

  lemma {:induction false} InternalRunIsShort(
      s: Cluster, actions: seq<Action>, t: Cluster, hosts: seq<Host>, keys: seq<JobKey>)
    requires Inv(s) && Lists(s, hosts, keys) && InternalRun(s, actions, t)
    ensures |actions| <= Measure(s, hosts, keys)
    decreases |actions|
  {
    MeasureIsNotNegative(s, hosts, keys);
    if actions != [] {
      var next := Do(s, actions[0]);
      StepKeepsInv(s, actions[0]);
      InternalStepLowersMeasure(s, next, actions[0], hosts, keys);
      InternalStepKeepsLists(s, next, actions[0], hosts, keys);
      InternalRunIsShort(next, actions[1..], t, hosts, keys);
    }
  }

  ghost function Listing<T>(x: set<T>): (l: seq<T>)
    ensures Elements(l) == x
  {
    if x == {} then []
    else
      var e :| e in x;
      var rest := Listing(x - {e});
      assert Elements([e] + rest) == {e} + Elements(rest);
      [e] + rest
  }

  // Once the users let the system alone, no run goes on for ever, whatever is lost or fails and
  // however little its publishers wait: from every state there is a bound on its length.
  lemma RunsEnd(s: Cluster) returns (bound: nat)
    requires Reachable(s)
    ensures forall actions, t :: InternalRun(s, actions, t) ==> |actions| <= bound
  {
    ReachableInv(s);
    var hosts, keys := Listing(s.nodes.Keys), Listing(s.past.Keys);
    MeasureIsNotNegative(s, hosts, keys);
    bound := Measure(s, hosts, keys);
    forall actions, t | InternalRun(s, actions, t) ensures |actions| <= bound {
      InternalRunIsShort(s, actions, t, hosts, keys);
    }
  }
}
