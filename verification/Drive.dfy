/**
 Runs that really happen.  From every reachable state a host that has caught up can be brought to
 the restart of a job of its own, while nothing else moves; so two jobs of one service can have two
 hosts restart at once.  Each lemma is one stretch of the way, from the submission to the report
 that announces the restart.
 */
module Drive {
  import opened Entities
  import opened RaftApp
  import opened RaftAppInvariants
  import opened Controller
  import opened Cluster
  import opened ClusterInvariant
  import opened ClusterCommit
  import opened ClusterTheorems

  lemma {:induction false} RunExtends(s: Cluster, actions: seq<Action>, m: Cluster, a: Action)
    requires Run(s, actions, m) && Enabled(m, a)
    ensures Run(s, actions + [a], Do(m, a))
    decreases |actions|
  {
    if actions == [] {
      assert Run(Do(m, a), [], Do(m, a));
      assert (actions + [a])[1..] == [];
    } else {
      RunExtends(Do(s, actions[0]), actions[1..], m, a);
      assert (actions + [a])[1..] == actions[1..] + [a];
    }
  }

  lemma Follow(s: Cluster, a: Action)
    requires Reachable(s) && Enabled(s, a)
    ensures Reachable(Do(s, a))
  {
    var s0: Cluster, actions: seq<Action> :| Initial(s0) && Run(s0, actions, s);
    RunExtends(s0, actions, s, a);
  }

  // Everybody but h, and every job but k, is left alone.
  ghost predicate Aside(s: Cluster, t: Cluster, h: Host, k: JobKey) {
    && h in s.nodes && t.nodes.Keys == s.nodes.Keys && (forall g :: g in s.nodes && g != h ==> t.nodes[g] == s.nodes[g])
    && t.store.instances == s.store.instances
    && (forall j :: j in s.store.jobs && j != k ==> j in t.store.jobs && t.store.jobs[j] == s.store.jobs[j])
    && s.events <= t.events
    && (forall e :: |s.events| <= e < |t.events| ==> !t.events[e].JobFailed? && t.events[e].job.key == k)
  }

  // Host h is idle, its replica has applied the whole log, and n events wait in its queue.
  ghost predicate Waiting(s: Cluster, h: Host, n: nat) {
    && h in s.nodes && s.nodes[h].consumer == Idle
    && s.nodes[h].applied == |s.log| && s.nodes[h].handled + n == |s.events|
  }

  // A submission for host h alone, in believe mode.
  function Alone(ns: string, service: string, h: Host): SubmitRequest {
    SubmitRequest(ns, ns, service, [Target(h, 0)], true)
  }

  ghost predicate HasJob(s: Cluster, k: JobKey, h: Host, status: JobStatus) {
    && k in s.store.jobs && k in s.past && s.store.jobs[k].key == k
    && s.store.jobs[k].order == [h] && s.store.jobs[k].believe && s.store.jobs[k].status == status
    && s.store.jobs[k].configuration.Keys == {h}
  }

  // A commit that the replica of h applies at once.
  lemma CommitAndApply(s: Cluster, id: nat, h: Host) returns (t: Cluster)
    requires Reachable(s) && Waiting(s, h, 0) && id in s.flight
    ensures Reachable(t) && t == DoApply(DoCommit(s, id), h)
    ensures Waiting(t, h, |t.events| - |s.events|) && s.events <= t.events
  {
    Follow(s, Commits(id));
    Follow(DoCommit(s, id), Applies(h));
    t := DoApply(DoCommit(s, id), h);
  }

  // The head of the queue can be taken.
  lemma CanTake(s: Cluster, h: Host, n: nat)
    requires Reachable(s) && Waiting(s, h, n) && n > 0
    ensures Enabled(s, Handles(h))
  {
    ReachableInv(s);
  }

  // The job is submitted and created,
  lemma Submitted(s: Cluster, h: Host, ns: string, service: string) returns (t: Cluster, k: JobKey)
    requires Reachable(s) && Waiting(s, h, 0) && ServiceKey(ns, service) !in s.store.instances
    ensures k == JobKey(ns, service, k.id) && k !in s.store.jobs
    ensures Reachable(t) && Waiting(t, h, 1) && Aside(s, t, h, k) && HasJob(t, k, h, Queued)
    ensures |t.events| == |s.events| + 1 && t.events[|s.events|] == JobCreated(t.store.jobs[k])
    ensures t.nodes[h].tasks == s.nodes[h].tasks && k !in t.nodes[h].tasks
  {
    ReachableInv(s);
    var c := SubmitJob(Alone(ns, service, h));
    Follow(s, Submits(c.request));
    var m := Send(s, c);
    k := NextKey(s.store, c.request);
    NextKeyIsNew(s.store, c.request);
    assert k in s.nodes[h].tasks ==> TaskOk(s, h, k);
    t := CommitAndApply(m, s.next, h);
    SubmissionCreates(s, m, t, h, k, c.request);
  }

  lemma SubmissionCreates(s: Cluster, m: Cluster, t: Cluster, h: Host, k: JobKey, r: SubmitRequest)
    requires h in s.nodes && r == Alone(r.ns, r.service, h) && ServiceKey(r.ns, r.service) !in s.store.instances
    requires m == Send(s, SubmitJob(r)) && s.next in m.flight && t == DoApply(DoCommit(m, s.next), h)
    requires k == NextKey(s.store, r)
    ensures Aside(s, t, h, k) && HasJob(t, k, h, Queued)
    ensures |t.events| == |s.events| + 1 && t.events[|s.events|] == JobCreated(t.store.jobs[k])
    ensures t.nodes[h].tasks == s.nodes[h].tasks
  {
    assert TargetHosts(r.targets) == [h];
    assert ReplicaIds(r.targets) == [0];
    var job := NewJob(k, true, [h]);
    assert EachHost([h], ConfigurationPending).Keys == Elements([h]) == {h};
  }

  // the host takes it and puts a task in the background,
  lemma Taken(s: Cluster, h: Host, k: JobKey) returns (t: Cluster)
    requires Reachable(s) && Waiting(s, h, 1) && HasJob(s, k, h, Queued) && k !in s.nodes[h].tasks
    requires s.events[|s.events| - 1] == JobCreated(s.store.jobs[k])
    ensures Reachable(t) && Waiting(t, h, 0) && Aside(s, t, h, k) && t.store == s.store && k in t.past
    ensures k in t.nodes[h].tasks && t.nodes[h].tasks[k] == Spawned
  {
    CanTake(s, h, 1);
    assert h in s.store.jobs[k].configuration;
    Follow(s, Handles(h));
    t := DoHandle(s, h);
  }

  // which does its work and reports SUCCESS,
  lemma Worked(s: Cluster, h: Host, k: JobKey) returns (t: Cluster, id: nat)
    requires Reachable(s) && Waiting(s, h, 0) && k in s.past
    requires k in s.nodes[h].tasks && s.nodes[h].tasks[k] == Spawned
    ensures Reachable(t) && Waiting(t, h, 0) && Aside(s, t, h, k) && t.store == s.store && k in t.past
    ensures k in t.nodes[h].tasks && id in t.flight && t.flight[id] == ConfigurationUpdate(k, h, ConfigurationSuccess)
  {
    Follow(s, Announces(h, k));
    var m := DoAnnounce(s, h, k);
    Follow(m, Proceeds(h, k));
    var n := DoProceed(m, h, k);
    Follow(n, Reports(h, k, Succeeded));
    t, id := DoReport(n, h, k, Succeeded), n.next;
  }

  // which configures the job, since it has no other host.
  lemma Ready(s: Cluster, h: Host, k: JobKey, id: nat) returns (t: Cluster)
    requires Reachable(s) && Waiting(s, h, 0) && HasJob(s, k, h, Queued) && k in s.nodes[h].tasks
    requires id in s.flight && s.flight[id] == ConfigurationUpdate(k, h, ConfigurationSuccess)
    ensures Reachable(t) && Waiting(t, h, 2) && Aside(s, t, h, k) && HasJob(t, k, h, Configured) &&
            k in t.nodes[h].tasks
    ensures |t.events| == |s.events| + 2
    ensures t.events[|s.events|] == HostConfigured(t.store.jobs[k], h)
    ensures t.events[|s.events| + 1] == AllHostConfigured(t.store.jobs[k], h)
  {
    t := CommitAndApply(s, id, h);
    AllConfiguredAfter(s.store.jobs[k].configuration, h, ConfigurationSuccess);
    ReportIsNoted(s, DoCommit(s, id), id, k, h, ConfigurationSuccess);
    assert s.store.jobs[k].configuration[h := ConfigurationSuccess].Keys == {h};
  }

  // The host confirms on behalf of the user, and does not wait for the answer,
  lemma Confirmed(s: Cluster, h: Host, k: JobKey) returns (t: Cluster, id: nat)
    requires Reachable(s) && Waiting(s, h, 2) && HasJob(s, k, h, Configured) && k in s.nodes[h].tasks
    requires s.events[|s.events| - 2] == HostConfigured(s.store.jobs[k], h)
    requires s.events[|s.events| - 1] == AllHostConfigured(s.store.jobs[k], h)
    ensures Reachable(t) && Waiting(t, h, 0) && Aside(s, t, h, k) && t.store == s.store && k in t.past
    ensures k in t.nodes[h].tasks && id in t.flight && t.flight[id] == RestartConfirmation(k)
  {
    CanTake(s, h, 2);
    Follow(s, Handles(h));
    var m := DoHandle(s, h);
    assert Answer(s, h).Ignore?;
    t, id := ConfirmedAtOnce(m, h, k);
  }

  lemma ConfirmedAtOnce(s: Cluster, h: Host, k: JobKey) returns (t: Cluster, id: nat)
    requires Reachable(s) && Waiting(s, h, 1) && HasJob(s, k, h, Configured) && k in s.nodes[h].tasks
    requires s.events[|s.events| - 1] == AllHostConfigured(s.store.jobs[k], h)
    ensures Reachable(t) && Waiting(t, h, 0) && Aside(s, t, h, k) && t.store == s.store && k in t.past
    ensures k in t.nodes[h].tasks && id in t.flight && t.flight[id] == RestartConfirmation(k)
  {
    CanTake(s, h, 1);
    Follow(s, Handles(h));
    var n := DoConfirm(s, h, k);
    Follow(n, Returns(h));
    t, id := DoReturn(n, h), s.next;
  }

  // the confirmation is accepted,
  lemma LetGo(s: Cluster, h: Host, k: JobKey, id: nat) returns (t: Cluster)
    requires Reachable(s) && Waiting(s, h, 0) && HasJob(s, k, h, Configured) && k in s.nodes[h].tasks
    requires id in s.flight && s.flight[id] == RestartConfirmation(k)
    ensures Reachable(t) && Waiting(t, h, 1) && Aside(s, t, h, k) && HasJob(t, k, h, Deploying) && k in t.nodes[h].tasks
    ensures t.events[|t.events| - 1] == RestartConfirmed(t.store.jobs[k], h, 0)
  {
    t := CommitAndApply(s, id, h);
  }

  // and the host announces its restart.
  lemma Prepared(s: Cluster, h: Host, k: JobKey) returns (t: Cluster)
    requires Reachable(s) && Waiting(s, h, 1) && HasJob(s, k, h, Deploying) && k in s.nodes[h].tasks
    requires s.events[|s.events| - 1] == RestartConfirmed(s.store.jobs[k], h, 0)
    ensures Reachable(t) && Aside(s, t, h, k) && t.store == s.store
    ensures t.nodes[h].consumer.Preparing? && t.nodes[h].consumer.key == k && t.nodes[h].consumer.id in t.flight
    ensures t.flight[t.nodes[h].consumer.id] == RestartServiceUpdate(k, h, DeploymentRestarting)
  {
    CanTake(s, h, 1);
    Follow(s, Handles(h));
    t := DoPrepare(s, h, k);
  }

  lemma AsideIsTransitive(s: Cluster, m: Cluster, t: Cluster, h: Host, k: JobKey)
    requires Aside(s, m, h, k) && Aside(m, t, h, k)
    ensures Aside(s, t, h, k)
  {
    forall e | |s.events| <= e < |t.events| ensures !t.events[e].JobFailed? && t.events[e].job.key == k {
      if e < |m.events| { assert t.events[e] == m.events[e]; }
    }
  }

  lemma CanBegin(s: Cluster, h: Host, ns: string, service: string) returns (t: Cluster, k: JobKey)
    requires Reachable(s) && Waiting(s, h, 0) && ServiceKey(ns, service) !in s.store.instances
    ensures k == JobKey(ns, service, k.id) && k !in s.store.jobs
    ensures Reachable(t) && Waiting(t, h, 0) && Aside(s, t, h, k) && HasJob(t, k, h, Queued)
    ensures k in t.nodes[h].tasks && t.nodes[h].tasks[k] == Spawned
  {
    var a: Cluster;
    a, k := Submitted(s, h, ns, service);
    t := Taken(a, h, k);
    AsideIsTransitive(s, a, t, h, k);
  }

  lemma CanGetReady(s: Cluster, h: Host, ns: string, service: string) returns (t: Cluster, k: JobKey)
    requires Reachable(s) && Waiting(s, h, 0) && ServiceKey(ns, service) !in s.store.instances
    ensures k == JobKey(ns, service, k.id) && k !in s.store.jobs
    ensures Reachable(t) && Waiting(t, h, 2) && Aside(s, t, h, k) && HasJob(t, k, h, Configured) &&
            k in t.nodes[h].tasks
    ensures |t.events| >= 2 && t.events[|t.events| - 2] == HostConfigured(t.store.jobs[k], h)
    ensures t.events[|t.events| - 1] == AllHostConfigured(t.store.jobs[k], h)
  {
    var b, c: Cluster;
    var id: nat;
    b, k := CanBegin(s, h, ns, service);
    c, id := Worked(b, h, k);
    t := Ready(c, h, k, id);
    AsideIsTransitive(b, c, t, h, k);
    AsideIsTransitive(s, b, t, h, k);
  }

  lemma CanBeLetGo(s: Cluster, h: Host, k: JobKey) returns (t: Cluster)
    requires Reachable(s) && Waiting(s, h, 2) && HasJob(s, k, h, Configured) && k in s.nodes[h].tasks
    requires |s.events| >= 2 && s.events[|s.events| - 2] == HostConfigured(s.store.jobs[k], h)
    requires s.events[|s.events| - 1] == AllHostConfigured(s.store.jobs[k], h)
    ensures Reachable(t) && Waiting(t, h, 1) && Aside(s, t, h, k) && HasJob(t, k, h, Deploying) && k in t.nodes[h].tasks
    ensures t.events[|t.events| - 1] == RestartConfirmed(t.store.jobs[k], h, 0)
  {
    var e: Cluster;
    var id: nat;
    e, id := Confirmed(s, h, k);
    t := LetGo(e, h, k, id);
    AsideIsTransitive(s, e, t, h, k);
  }

  // A host on its way into Deploy, whose report about it is in flight.
  ghost predicate Announced(s: Cluster, h: Host, k: JobKey) {
    && h in s.nodes && s.nodes[h].consumer.Preparing? && s.nodes[h].consumer.key == k
    && s.nodes[h].consumer.id in s.flight
    && s.flight[s.nodes[h].consumer.id] == RestartServiceUpdate(k, h, DeploymentRestarting)
    && HasJob(s, k, h, Deploying)
  }

  lemma CanGoOn(s: Cluster, h: Host, k: JobKey) returns (t: Cluster)
    requires Reachable(s) && Waiting(s, h, 2) && HasJob(s, k, h, Configured) && k in s.nodes[h].tasks
    requires |s.events| >= 2 && s.events[|s.events| - 2] == HostConfigured(s.store.jobs[k], h)
    requires s.events[|s.events| - 1] == AllHostConfigured(s.store.jobs[k], h)
    ensures Reachable(t) && Aside(s, t, h, k) && Announced(t, h, k)
  {
    var f := CanBeLetGo(s, h, k);
    t := Prepared(f, h, k);
    StillHasJob(f, t, h, k);
    AsideIsTransitive(s, f, t, h, k);
  }

  lemma StillHasJob(s: Cluster, t: Cluster, h: Host, k: JobKey)
    requires Reachable(t) && t.store == s.store && HasJob(s, k, h, Deploying)
    ensures HasJob(t, k, h, Deploying)
  {
    ReachableInv(t);
  }

  // Every host that has caught up can get to the restart of a new job of any service that has no
  // instances yet, without anybody else moving.
  lemma CanRestart(s: Cluster, h: Host, ns: string, service: string) returns (t: Cluster, k: JobKey)
    requires Reachable(s) && Waiting(s, h, 0) && ServiceKey(ns, service) !in s.store.instances
    ensures k == JobKey(ns, service, k.id) && k !in s.store.jobs
    ensures Reachable(t) && Aside(s, t, h, k) && Announced(t, h, k)
  {
    var d: Cluster;
    d, k := CanGetReady(s, h, ns, service);
    t := CanGoOn(d, h, k);
    AsideIsTransitive(s, d, t, h, k);
  }

  // --- Catching up with the jobs of others. ---

  // Nothing that waits for host g concerns it.
  ghost predicate Unconcerned(s: Cluster, g: Host) {
    && g in s.nodes && s.nodes[g].consumer == Idle && s.nodes[g].handled <= |s.events|
    && forall e: nat :: s.nodes[g].handled <= e < |s.events| ==> Decide(s.nodes[g].tasks.Keys, g, s.events[e]) == Ignore
  }

  // Only the indices of g move.
  ghost predicate OnlyReads(s: Cluster, t: Cluster, g: Host) {
    && g in s.nodes && g in t.nodes
    && t == s.(nodes := s.nodes[g := s.nodes[g].(applied := t.nodes[g].applied, handled := t.nodes[g].handled)])
  }

  lemma {:induction false} AppliesAll(s: Cluster, g: Host) returns (t: Cluster)
    requires Reachable(s) && g in s.nodes
    ensures Reachable(t) && OnlyReads(s, t, g) && t.nodes[g].applied == |t.log| &&
            t.nodes[g].handled == s.nodes[g].handled
    decreases |s.log| - s.nodes[g].applied
  {
    ReachableInv(s);
    QueuesAreBehind(s, g);
    if s.nodes[g].applied < |s.log| {
      Follow(s, Applies(g));
      t := AppliesAll(DoApply(s, g), g);
    } else {
      t := s;
    }
  }

  lemma {:induction false} IgnoresAll(s: Cluster, g: Host) returns (t: Cluster)
    requires Reachable(s) && Unconcerned(s, g) && s.nodes[g].applied == |s.log|
    ensures Reachable(t) && OnlyReads(s, t, g) && Waiting(t, g, 0)
    decreases |s.events| - s.nodes[g].handled
  {
    if s.nodes[g].handled < |s.events| {
      CanTake(s, g, |s.events| - s.nodes[g].handled);
      Follow(s, Handles(g));
      assert Answer(s, g).Ignore?;
      t := IgnoresAll(DoHandle(s, g), g);
    } else {
      t := s;
    }
  }

  // --- Two jobs of one service. ---

  // While host a is about to restart for job j, no event about j concerns another host.
  lemma EventOfOther(s: Cluster, a: Host, b: Host, j: JobKey, e: nat)
    requires Reachable(s) && Announced(s, a, j) && a != b && b in s.nodes
    requires s.nodes[b].handled <= e < |s.events| && !s.events[e].JobFailed? && s.events[e].job.key == j
    ensures Decide(s.nodes[b].tasks.Keys, b, s.events[e]) == Ignore
  {
    ReachableInv(s);
    NamedFacts(s, a, j, e);
    ForeignEvent(s, a, b, j, e);
  }

  lemma NamedFacts(s: Cluster, a: Host, j: JobKey, e: nat)
    requires Inv(s) && Announced(s, a, j) && e < |s.events|
    ensures SnapshotOk(s, e) && EventToken(s, e) && HasToken(s, j, Prepares(a))
  {
    assert ConsumerToken(s, a);
  }

  lemma ForeignEvent(s: Cluster, a: Host, b: Host, j: JobKey, e: nat)
    requires a != b && b in s.nodes && HasJob(s, j, a, Deploying)
    requires s.nodes[b].handled <= e < |s.events| && !s.events[e].JobFailed? && s.events[e].job.key == j
    requires SnapshotOk(s, e) && EventToken(s, e) && HasToken(s, j, Prepares(a))
    ensures Decide(s.nodes[b].tasks.Keys, b, s.events[e]) == Ignore
  {
  }

  // Host b, which has done nothing yet, reads all there is about j.
  lemma ReadsAboutOther(s: Cluster, a: Host, b: Host, j: JobKey) returns (t: Cluster)
    requires Reachable(s) && Announced(s, a, j) && a != b && b in s.nodes && s.nodes[b].consumer == Idle
    requires forall e :: s.nodes[b].handled <= e < |s.events| ==> !s.events[e].JobFailed? && s.events[e].job.key == j
    ensures Reachable(t) && OnlyReads(s, t, b) && Waiting(t, b, 0)
  {
    var m := AppliesAll(s, b);
    ReachableInv(m);
    QueuesAreBehind(m, b);
    forall e: nat | m.nodes[b].handled <= e < |m.events|
      ensures Decide(m.nodes[b].tasks.Keys, b, m.events[e]) == Ignore
    {
      EventOfOther(m, a, b, j, e);
    }
    t := IgnoresAll(m, b);
  }

  // Mutual exclusion is a matter of one job: two hosts can be inside the restart of one service at
  // the same time, for two jobs of it, whatever the service is called and whoever the hosts are.
  lemma TwoJobsCanRestartAtOnce(s0: Cluster, a: Host, b: Host, ns: string, service: string)
    returns (t: Cluster, j: JobKey, k: JobKey)
    requires Initial(s0) && a in s0.nodes && b in s0.nodes && a != b
    requires ServiceKey(ns, service) !in s0.store.instances
    ensures Reachable(t) && j != k && j.ns == k.ns == ns && j.service == k.service == service
    ensures Restarting(t, a, j) && Restarting(t, b, k)
  {
    assert Run(s0, [], s0);
    var m, n: Cluster;
    m, j := CanRestart(s0, a, ns, service);
    n := ReadsAboutOther(m, a, b, j);
    t, k := CanRestart(n, b, ns, service);
  }
}
