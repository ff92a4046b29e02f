/**
 What the state machine guarantees by itself: for every log of commands, sent by anybody, in any
 order, with any arguments.
 */
module RaftAppInvariants {
  import opened Entities
  import opened RaftApp

  ghost predicate CursorOk(job: Job) {
    && 0 < Variety(job.order) <= |job.order|
    && (job.cursor.Some? ==> job.cursor.value <= Variety(job.order))
    && (job.status == Deploying ==> job.cursor.Some? && job.cursor.value < Variety(job.order))
    && (job.status == Deployed ==> job.cursor == Some(Variety(job.order)))
  }

  ghost predicate OutcomesOk(job: Job)
    requires job.deployment.Keys == Elements(job.order)
  {
    && (Distinct(job.order) && job.cursor.Some? ==>
          forall i :: 0 <= i < job.cursor.value && i < |job.order| ==>
              job.deployment[job.order[i]] == DeploymentSuccess)
    && (job.status == Failed ==>
          job.cursor.Some? && job.cursor.value < |job.order| &&
              job.deployment[job.order[job.cursor.value]] == DeploymentFailed)
  }

  ghost predicate JobOk(job: Job) {
    && job.order != []
    && job.configuration.Keys == Elements(job.order)
    && job.deployment.Keys == Elements(job.order)
    && CursorOk(job)
    && OutcomesOk(job)
  }

  predicate Filed(store: Store) {
    forall k :: k in store.jobs ==> store.jobs[k].key == k
  }

  ghost predicate StoreOk(store: Store) {
    && Filed(store)
    && forall k {:trigger EntryOk(store, k)} :: k in store.jobs ==> EntryOk(store, k)
  }

  ghost predicate EntryOk(store: Store, k: JobKey)
    requires k in store.jobs
  {
    k.id <= LastId(store, k.ns, k.service) && JobOk(store.jobs[k])
  }

  // What no command ever changes about a job that exists.
  predicate SameJob(a: Job, b: Job) {
    && a.key == b.key
    && a.order == b.order
    && a.believe == b.believe
    && a.configuration.Keys == b.configuration.Keys
    && a.deployment.Keys == b.deployment.Keys
  }

  lemma DeploymentCount(job: Job)
    requires job.deployment.Keys == Elements(job.order)
    ensures |job.deployment| == Variety(job.order) <= |job.order|
    ensures Variety(job.order) == |job.order| <==> Distinct(job.order)
  {
    VarietyIsCount(job.order);
    VarietyBound(job.order);
    assert |job.deployment| == |job.deployment.Keys|;
  }

  lemma PutKeepsStoreOk(store: Store, job: Job)
    requires StoreOk(store) && JobOk(job)
    requires job.key.id <= LastId(store, job.key.ns, job.key.service)
    ensures StoreOk(store.(jobs := store.jobs[job.key := job]))
  {
    var after := store.(jobs := store.jobs[job.key := job]);
    forall k | k in after.jobs ensures EntryOk(after, k) {
      if k != job.key {
        assert EntryOk(store, k);
      }
    }
  }

  lemma NewJobOk(key: JobKey, believe: bool, hosts: seq<Host>)
    requires hosts != []
    ensures JobOk(NewJob(key, believe, hosts))
  {
    var job := NewJob(key, believe, hosts);
    DeploymentCount(job);
  }

  lemma NextKeyIsNew(store: Store, r: SubmitRequest)
    requires StoreOk(store)
    ensures NextKey(store, r) !in store.jobs
  {
    var key := NextKey(store, r);
    assert key in store.jobs ==> EntryOk(store, key);
  }

  lemma SubmitKeepsStoreOk(store: Store, r: SubmitRequest)
    requires StoreOk(store)
    ensures StoreOk(Submit(store, r).store)
  {
    if Submit(store, r).error == None {
      var key := NextKey(store, r);
      NewJobOk(key, r.believe, HostsOf(store, r));
      var issued := store.(issued := store.issued[ServiceKey(r.ns, r.service) := key.id]);
      forall k | k in issued.jobs ensures EntryOk(issued, k) {
        assert EntryOk(store, k);
      }
      PutKeepsStoreOk(issued, NewJob(key, r.believe, HostsOf(store, r)));
    }
  }

  // Setting one host's deployment status, with what follows from it.
  lemma ReportKeepsJobOk(job: Job, host: Host, status: DeploymentStatus)
    requires JobOk(job) && job.status == Deploying && job.order[job.cursor.value] == host
    requires status != DeploymentSuccess
    ensures var after := job.(deployment := job.deployment[host := status]);
            JobOk(after.(status := if status == DeploymentFailed then Failed else Deploying)) && SameJob(job, after)
  {
    assert job.deployment[host := status].Keys == job.deployment.Keys;
    DeploymentCount(job.(deployment := job.deployment[host := status]));
  }

  lemma AdvanceKeepsJobOk(job: Job, host: Host)
    requires JobOk(job) && job.status == Deploying && job.order[job.cursor.value] == host
    ensures var after := job.(deployment := job.deployment[host := DeploymentSuccess],
                              cursor := Some(job.cursor.value + 1));
            && JobOk(after.(status := if after.cursor.value >= |after.deployment| then Deployed else Deploying))
            && SameJob(job, after)
  {
    AdvanceKeepsOutcomes(job, host);
    DeploymentCount(job.(deployment := job.deployment[host := DeploymentSuccess]));
  }

  lemma AdvanceKeepsOutcomes(job: Job, host: Host)
    requires job.deployment.Keys == Elements(job.order) && OutcomesOk(job)
    requires job.cursor.Some? && job.cursor.value < |job.order| && job.order[job.cursor.value] == host
    ensures var after := job.(deployment := job.deployment[host := DeploymentSuccess],
                              cursor := Some(job.cursor.value + 1));
            && after.deployment.Keys == job.deployment.Keys
            && OutcomesOk(after.(status := Deployed)) && OutcomesOk(after.(status := Deploying))
  {
    assert host in Elements(job.order);
    assert job.deployment[host := DeploymentSuccess].Keys == job.deployment.Keys;
  }

  // What an accepted report makes of the job is in order.
  lemma UpdateRestartKeepsJobOk(store: Store, key: JobKey, host: Host, status: DeploymentStatus)
    requires key in store.jobs && store.jobs[key].key == key && JobOk(store.jobs[key])
    requires UpdateRestart(store, key, host, status).error == None
    ensures var after := UpdateRestart(store, key, host, status).store;
            && key in after.jobs && after == store.(jobs := store.jobs[key := after.jobs[key]])
            && JobOk(after.jobs[key]) && SameJob(store.jobs[key], after.jobs[key])
  {
    if status == DeploymentSuccess {
      AdvanceKeepsJobOk(store.jobs[key], host);
    } else {
      ReportKeepsJobOk(store.jobs[key], host, status);
    }
  }

  lemma UpdateRestartKeepsStoreOk(store: Store, key: JobKey, host: Host, status: DeploymentStatus)
    requires StoreOk(store) && key in store.jobs
    ensures StoreOk(UpdateRestart(store, key, host, status).store)
    ensures SameJob(store.jobs[key], UpdateRestart(store, key, host, status).store.jobs[key])
  {
    assert EntryOk(store, key);
    var o := UpdateRestart(store, key, host, status);
    if o.error == None {
      UpdateRestartKeepsJobOk(store, key, host, status);
      PutKeepsStoreOk(store, o.store.jobs[key]);
    } else {
      assert o.store == store;
    }
  }

  lemma ConfigureKeepsJobOk(job: Job, host: Host, status: ConfigurationStatus)
    requires JobOk(job) && host in job.configuration
    ensures var after := job.(configuration := job.configuration[host := status]);
            && JobOk(after) && JobOk(after.(status := Configured)) && SameJob(job, after)
  {
    assert job.configuration[host := status].Keys == job.configuration.Keys;
  }

  lemma UpdateConfigurationKeepsStoreOk(store: Store, key: JobKey, host: Host, status: ConfigurationStatus)
    requires StoreOk(store) && key in store.jobs
    ensures StoreOk(UpdateConfiguration(store, key, host, status).store)
    ensures SameJob(store.jobs[key], UpdateConfiguration(store, key, host, status).store.jobs[key])
  {
    var job := store.jobs[key];
    assert EntryOk(store, key);
    if host in job.configuration {
      ConfigureKeepsJobOk(job, host, status);
      PutKeepsStoreOk(store, UpdateConfiguration(store, key, host, status).store.jobs[key]);
    }
  }

  lemma RestartKeepsStoreOk(store: Store, key: JobKey)
    requires StoreOk(store) && key in store.jobs
    ensures StoreOk(Restart(store, key).store)
    ensures SameJob(store.jobs[key], Restart(store, key).store.jobs[key])
  {
    assert EntryOk(store, key);
    if Restart(store, key).error == None {
      PutKeepsStoreOk(store, Restart(store, key).store.jobs[key]);
    }
  }

  // The job a command is about; for a submission, the job it would create.
  function Subject(store: Store, c: Command): JobKey {
    if c.SubmitJob? then NextKey(store, c.request) else c.key
  }

  lemma ApplyTouchesOneJob(store: Store, c: Command, k: JobKey)
    requires Filed(store)
    requires k != Subject(store, c)
    ensures k in Apply(store, c).store.jobs <==> k in store.jobs
    ensures k in store.jobs ==> Apply(store, c).store.jobs[k] == store.jobs[k]
  {
    match c {
      case SubmitJob(r) => assert NewJob(NextKey(store, r), r.believe, HostsOf(store, r)).key == NextKey(store, r);
      case RestartServiceUpdate(key, host, status) => RestartReportTouchesOneJob(store, key, host, status, k);
      case _ =>
    }
  }

  lemma RestartReportTouchesOneJob(store: Store, key: JobKey, host: Host, status: DeploymentStatus, k: JobKey)
    requires key in store.jobs ==> store.jobs[key].key == key
    requires k != key
    ensures k in UpdateRestart(store, key, host, status).store.jobs <==> k in store.jobs
    ensures k in store.jobs ==> UpdateRestart(store, key, host, status).store.jobs[k] == store.jobs[k]
  {
  }

  lemma ApplyKeepsStoreOk(store: Store, c: Command)
    requires StoreOk(store)
    ensures StoreOk(Apply(store, c).store)
  {
    match c {
      case SubmitJob(r) => SubmitKeepsStoreOk(store, r);
      case CancelJob(key) =>
        if Cancel(store, key).error == None {
          assert EntryOk(store, key);
          PutKeepsStoreOk(store, store.jobs[key].(status := Cancelled));
        }
      case ConfigurationUpdate(key, host, status) =>
        if key in store.jobs { UpdateConfigurationKeepsStoreOk(store, key, host, status); }
      case RestartConfirmation(key) =>
        if key in store.jobs { RestartKeepsStoreOk(store, key); }
      case RestartServiceUpdate(key, host, status) =>
        if key in store.jobs { UpdateRestartKeepsStoreOk(store, key, host, status); }
    }
  }

  // No command removes a job or changes what identifies it.
  lemma ApplyKeepsSameJob(store: Store, c: Command, k: JobKey)
    requires StoreOk(store) && k in store.jobs
    ensures k in Apply(store, c).store.jobs && SameJob(store.jobs[k], Apply(store, c).store.jobs[k])
  {
    if k != Subject(store, c) {
      ApplyTouchesOneJob(store, c, k);
    } else if c.SubmitJob? {
      NextKeyIsNew(store, c.request);
    } else {
      assert EntryOk(store, k) && store.jobs[k].key == k;
      SubjectStaysSame(store, c, k);
    }
  }

  lemma ConfigurationStaysSame(store: Store, k: JobKey, host: Host, status: ConfigurationStatus)
    requires k in store.jobs && store.jobs[k].key == k
    ensures k in UpdateConfiguration(store, k, host, status).store.jobs
    ensures SameJob(store.jobs[k], UpdateConfiguration(store, k, host, status).store.jobs[k])
  {
    var before := store.jobs[k].configuration;
    assert host in before ==> before[host := status].Keys == before.Keys;
  }

  lemma DeploymentStaysSame(store: Store, k: JobKey, host: Host, status: DeploymentStatus)
    requires k in store.jobs && store.jobs[k].key == k && store.jobs[k].deployment.Keys == Elements(store.jobs[k].order)
    ensures k in UpdateRestart(store, k, host, status).store.jobs
    ensures SameJob(store.jobs[k], UpdateRestart(store, k, host, status).store.jobs[k])
  {
    if UpdateRestart(store, k, host, status).error == None {
      assert host in Elements(store.jobs[k].order);
      SameHosts(store.jobs[k].deployment, host, status);
      assert UpdateRestart(store, k, host, status).store.jobs[k].deployment == store.jobs[k].deployment[host := status];
    }
  }

  lemma SameHosts(deployment: map<Host, DeploymentStatus>, host: Host, status: DeploymentStatus)
    requires host in deployment
    ensures deployment[host := status].Keys == deployment.Keys
  {
  }

  lemma SubjectStaysSame(store: Store, c: Command, k: JobKey)
    requires !c.SubmitJob? && c.key == k && k in store.jobs && store.jobs[k].key == k
    requires store.jobs[k].deployment.Keys == Elements(store.jobs[k].order)
    ensures k in Apply(store, c).store.jobs && SameJob(store.jobs[k], Apply(store, c).store.jobs[k])
  {
    match c {
      case ConfigurationUpdate(_, host, status) => ConfigurationStaysSame(store, k, host, status);
      case RestartServiceUpdate(_, host, status) => DeploymentStaysSame(store, k, host, status);
      case _ =>
    }
  }

  lemma {:induction false} ReplayKeepsStoreOk(start: Store, log: seq<Command>)
    requires StoreOk(start)
    ensures StoreOk(Replay(start, log).store)
  {
    if log != [] {
      ReplayKeepsStoreOk(start, log[..|log| - 1]);
      ApplyKeepsStoreOk(Replay(start, log[..|log| - 1]).store, log[|log| - 1]);
    }
  }

  // Domains and cursor, after every log over an empty job table: both status maps cover exactly
  // the hosts of the order, and a job that is deploying points at one of them, also when the
  // order repeats a host.
  lemma {:induction false} CursorAndDomainSafety(start: Store, log: seq<Command>, key: JobKey)
    requires start.jobs == map[]
    requires key in Replay(start, log).store.jobs
    ensures var job := Replay(start, log).store.jobs[key];
            && job.configuration.Keys == job.deployment.Keys == Elements(job.order) != {}
            && (job.status == Deploying ==>
                  job.cursor.Some? && job.cursor.value < |job.deployment| <= |job.order|)
            && (job.status == Deployed ==> job.cursor == Some(|Elements(job.order)|))
  {
    ReplayKeepsStoreOk(start, log);
    assert EntryOk(Replay(start, log).store, key);
    var job := Replay(start, log).store.jobs[key];
    DeploymentCount(job);
    assert job.order[0] in Elements(job.order);
    assert |job.deployment| == |job.deployment.Keys|;
  }

  // The only handler that can fault is the one that cancels, and only on a job that is not there.
  lemma {:induction false} OnlyAMissingCancelPanics(start: Store, log: seq<Command>, c: Command)
    requires start.jobs == map[]
    ensures var store := Replay(start, log).store;
            Apply(store, c).error == Some(Panicked) <==> c.CancelJob? && c.key !in store.jobs
  {
    ReplayKeepsStoreOk(start, log);
    var store := Replay(start, log).store;
    if !c.SubmitJob? && c.key in store.jobs {
      assert EntryOk(store, c.key);
      NoPanicOnGoodJob(store, c);
    }
  }

  lemma NoPanicOnGoodJob(store: Store, c: Command)
    requires !c.SubmitJob? && c.key in store.jobs && CursorOk(store.jobs[c.key])
    ensures Apply(store, c).error != Some(Panicked)
  {
  }

  // What the outcome of a job means, after every log, when its hosts are pairwise distinct.
  lemma {:induction false} MeaningOfOutcomes(start: Store, log: seq<Command>, key: JobKey)
    requires start.jobs == map[]
    requires key in Replay(start, log).store.jobs
    requires Distinct(Replay(start, log).store.jobs[key].order)
    ensures var job := Replay(start, log).store.jobs[key];
            && job.deployment.Keys == Elements(job.order)
            && (job.cursor.Some? ==>
                  && job.cursor.value <= |job.order|
                  && forall i :: 0 <= i < job.cursor.value ==> job.deployment[job.order[i]] == DeploymentSuccess)
            && (job.status == Deployed ==>
                  && job.cursor == Some(|job.order|)
                  && forall h :: h in job.deployment ==> job.deployment[h] == DeploymentSuccess)
            && (job.status == Failed ==>
                  && job.cursor.Some? && job.cursor.value < |job.order|
                  && job.deployment[job.order[job.cursor.value]] == DeploymentFailed)
  {
    ReplayKeepsStoreOk(start, log);
    assert EntryOk(Replay(start, log).store, key);
    DeploymentCount(Replay(start, log).store.jobs[key]);
  }

  // Completion compares the cursor with the number of different hosts, so a DEPLOYED job has
  // walked its whole order exactly when no host repeats.
  lemma {:induction false} DeployedCoversTheOrder(start: Store, log: seq<Command>, key: JobKey)
    requires start.jobs == map[]
    requires key in Replay(start, log).store.jobs
    requires Replay(start, log).store.jobs[key].status == Deployed
    ensures var job := Replay(start, log).store.jobs[key];
            job.cursor == Some(|job.order|) <==> Distinct(job.order)
  {
    ReplayKeepsStoreOk(start, log);
    assert EntryOk(Replay(start, log).store, key);
    DeploymentCount(Replay(start, log).store.jobs[key]);
  }

  // A cancelled job stays cancelled under every command but one: the configuration report that
  // makes all hosts SUCCESS.
  lemma CancelledIsLeftBy(store: Store, key: JobKey, c: Command)
    requires StoreOk(store) && key in store.jobs && store.jobs[key].status == Cancelled
    ensures key in Apply(store, c).store.jobs
    ensures Apply(store, c).store.jobs[key].status != Cancelled <==>
              && c.ConfigurationUpdate? && c.key == key
              && c.host in store.jobs[key].configuration
              && c.configuration == ConfigurationSuccess
              && forall h :: h in store.jobs[key].configuration && h != c.host ==>
                   store.jobs[key].configuration[h] == ConfigurationSuccess
  {
    if c.SubmitJob? {
      NextKeyIsNew(store, c.request);
    }
    if key != Subject(store, c) {
      ApplyTouchesOneJob(store, c, key);
    }
    if c.ConfigurationUpdate? && c.key == key {
      AllConfiguredAfter(store.jobs[key].configuration, c.host, c.configuration);
    }
  }

  lemma AllConfiguredAfter(before: map<Host, ConfigurationStatus>, host: Host, status: ConfigurationStatus)
    ensures AllConfigured(before[host := status]) <==>
              && status == ConfigurationSuccess
              && forall h :: h in before && h != host ==> before[h] == ConfigurationSuccess
  {
    var after := before[host := status];
    assert after[host] == status;
    assert forall h :: h in before && h != host ==> h in after && after[h] == before[h];
  }
}
