/**
 What each command is answered, told field by field, and what a log of commands adds up to.
 */
module Answers {
  import opened Entities
  import opened RaftApp
  import opened RaftAppInvariants

  // Nothing changes and nobody is told.
  predicate Refuses(store: Store, o: Outcome, error: Error) {
    o.error == Some(error) && o.store == store && o.events == []
  }

  // Job k becomes `after`, and nothing else changes.
  predicate Replaces(store: Store, o: Outcome, k: JobKey, after: Job) {
    o.error == None && o.store == store.(jobs := store.jobs[k := after])
  }

  // --- A submission. ---

  predicate HasInstances(store: Store, r: SubmitRequest) {
    var service := ServiceKey(r.serviceNs, r.service);
    service in store.instances && store.instances[service] != []
  }

  // The hosts of a job: those that have the service already, or those asked for, one by one.
  predicate HostsAsAsked(order: seq<Host>, store: Store, r: SubmitRequest) {
    if HasInstances(store, r) then order == store.instances[ServiceKey(r.serviceNs, r.service)]
    else |order| == |r.targets| && forall i :: 0 <= i < |order| ==> order[i] == r.targets[i].host
  }

  predicate AsAsked(job: Job, store: Store, r: SubmitRequest) {
    job.key.ns == r.ns && job.key.service == r.service && job.believe == r.believe && HostsAsAsked(job.order, store, r)
  }

  // Nothing has happened to a job.
  ghost predicate Untouched(job: Job) {
    && job.status == Queued && job.cursor == None
    && (forall h :: h in job.order <==> h in job.deployment)
    && (forall h :: h in job.order <==> h in job.configuration)
    && (forall h :: h in job.deployment ==> job.deployment[h] == DeploymentPending)
    && (forall h :: h in job.configuration ==> job.configuration[h] == ConfigurationPending)
  }

  predicate RepeatsReplica(targets: seq<Target>) {
    exists i, j :: 0 <= i < j < |targets| && targets[i].replicaId == targets[j].replicaId
  }

  // When a submission is refused, and why.
  lemma SubmissionRefused(store: Store, r: SubmitRequest)
    ensures var o := Apply(store, SubmitJob(r));
            && (!HasInstances(store, r) && r.targets == [] ==> Refuses(store, o, NoTargetHost))
            && (!HasInstances(store, r) && RepeatsReplica(r.targets) ==> Refuses(store, o, DuplicateReplica))
            && (HasInstances(store, r) || (r.targets != [] && !RepeatsReplica(r.targets)) ==> o.error == None)
  {
    var ids := ReplicaIds(r.targets);
    assert forall i :: 0 <= i < |ids| ==> ids[i] == r.targets[i].replicaId;
    if RepeatsReplica(r.targets) {
      var i, j :| 0 <= i < j < |r.targets| && r.targets[i].replicaId == r.targets[j].replicaId;
      assert ids[i] == ids[j];
    }
  }

  // An accepted submission files one job that was not there, as the request asks, under the next
  // id of its service, and announces it.
  lemma SubmissionFiles(store: Store, r: SubmitRequest) returns (k: JobKey)
    requires StoreOk(store) && Apply(store, SubmitJob(r)).error == None
    ensures k !in store.jobs && k.ns == r.ns && k.service == r.service
    ensures var service := ServiceKey(r.ns, r.service);
            k.id == (if service in store.issued then store.issued[service] else 0) + 1
    ensures var o := Apply(store, SubmitJob(r));
            && k in o.store.jobs && AsAsked(o.store.jobs[k], store, r) && Untouched(o.store.jobs[k])
            && o.store.jobs[k].key == k
            && o.store == Store(store.jobs[k := o.store.jobs[k]],
                                store.issued[ServiceKey(r.ns, r.service) := k.id],
                                store.instances)
            && o.events == [JobCreated(o.store.jobs[k])]
  {
    k := NextKey(store, r);
    NextKeyIsNew(store, r);
    var job := Apply(store, SubmitJob(r)).store.jobs[k];
    assert forall h :: h in Elements(job.order) <==> h in job.order;
  }

  // --- A cancellation. ---

  // Every job is cancelled that is not CANCELLED already, and not SUCCESS, which no job ever is.
  lemma CancellationAnswer(store: Store, k: JobKey)
    requires Filed(store)
    ensures var o := Apply(store, CancelJob(k));
            && o.events == []
            && (k !in store.jobs ==> Refuses(store, o, Panicked))
            && (k in store.jobs && store.jobs[k].status == Success ==> Refuses(store, o, AlreadyFinished))
            && (k in store.jobs && store.jobs[k].status == Cancelled ==> o.error == None && o.store == store)
            && (k in store.jobs && store.jobs[k].status != Success && store.jobs[k].status != Cancelled ==>
                  Replaces(store, o, k, store.jobs[k].(status := Cancelled)))
  {
  }

  // --- A configuration report. ---

  predicate AllSucceeded(configuration: map<Host, ConfigurationStatus>) {
    forall h :: h in configuration ==> configuration[h] == ConfigurationSuccess
  }

  // The report is recorded whatever the job's status is, and the last SUCCESS makes it CONFIGURED.
  lemma ConfigurationReportAnswer(store: Store, k: JobKey, h: Host, status: ConfigurationStatus)
    requires Filed(store)
    ensures var o := Apply(store, ConfigurationUpdate(k, h, status));
            && (k !in store.jobs ==> Refuses(store, o, JobNotFound))
            && (k in store.jobs && h !in store.jobs[k].configuration ==> Refuses(store, o, InvalidHost))
            && (k in store.jobs && h in store.jobs[k].configuration ==>
                  var recorded := store.jobs[k].configuration[h := status];
                  var all := AllSucceeded(recorded);
                  var after := store.jobs[k].(
                    configuration := recorded, status := if all then Configured else store.jobs[k].status);
                  && Replaces(store, o, k, after)
                  && o.events == [HostConfigured(after, h)] + if all then [AllHostConfigured(after, h)] else [])
  {
  }

  // --- A confirmation. ---

  // Only a CONFIGURED or DEPLOYING job can be confirmed; the first confirmation starts at the first
  // host, and every one names the host at the cursor.
  lemma ConfirmationAnswer(store: Store, k: JobKey)
    requires StoreOk(store)
    ensures var o := Apply(store, RestartConfirmation(k));
            && (k !in store.jobs ==> Refuses(store, o, JobNotFound))
            && (k in store.jobs && store.jobs[k].status != Configured && store.jobs[k].status != Deploying ==>
                  Refuses(store, o, NotConfirmable))
            && (k in store.jobs && store.jobs[k].status == Configured ==>
                  var after := store.jobs[k].(status := Deploying, cursor := Some(0));
                  && Replaces(store, o, k, after)
                  && after.order != [] && o.events == [RestartConfirmed(after, after.order[0], 0)])
            && (k in store.jobs && store.jobs[k].status == Deploying ==>
                  var job := store.jobs[k];
                  && Replaces(store, o, k, job)
                  && job.cursor.Some? && job.cursor.value < |job.order|
                  && o.events == [RestartConfirmed(job, job.order[job.cursor.value], job.cursor.value)])
  {
    if k in store.jobs { assert EntryOk(store, k); }
  }

  // --- A restart report. ---

  // The host that may report about its restart.
  predicate AtCursor(job: Job, h: Host) {
    job.status == Deploying && job.cursor.Some? && job.cursor.value < |job.order| && job.order[job.cursor.value] == h
  }

  // What is heard is recorded.  FAILED ends the job, SUCCESS moves the cursor on and, past the last
  // of the different hosts, completes the job; anything else is passed on.
  predicate Hears(store: Store, o: Outcome, k: JobKey, h: Host, status: DeploymentStatus)
    requires k in store.jobs && store.jobs[k].cursor.Some?
  {
    var heard := store.jobs[k].(deployment := store.jobs[k].deployment[h := status]);
    var next := store.jobs[k].cursor.value + 1;
    var more, done := heard.(cursor := Some(next)), heard.(cursor := Some(next), status := Deployed);
    match status
    case DeploymentFailed =>
      Replaces(store, o, k, heard.(status := Failed)) && o.events == [JobFailed]
    case DeploymentSuccess =>
      if next < |Elements(heard.order)| then
        Replaces(store, o, k, more) && o.events == [ServiceRestarted(more, h)]
      else
        Replaces(store, o, k, done) && o.events == [ServiceRestarted(done, h), AllServiceRestarted(done, h)]
    case _ =>
      Replaces(store, o, k, heard) && o.events == [ServiceUpdated(heard, h)]
  }

  // Only the host at the cursor of a DEPLOYING job is heard.
  lemma RestartReportAnswer(store: Store, k: JobKey, h: Host, status: DeploymentStatus)
    requires StoreOk(store)
    ensures var o := Apply(store, RestartServiceUpdate(k, h, status));
            && (k !in store.jobs ==> Refuses(store, o, JobNotFound))
            && (k in store.jobs && store.jobs[k].status != Deploying ==> Refuses(store, o, InvalidState))
            && (k in store.jobs && store.jobs[k].status == Deploying && !AtCursor(store.jobs[k], h) ==>
                  Refuses(store, o, NotOnDeployment))
            && (k in store.jobs && AtCursor(store.jobs[k], h) ==> Hears(store, o, k, h, status))
  {
    if k in store.jobs {
      assert EntryOk(store, k);
      if AtCursor(store.jobs[k], h) { ReportAtCursor(store, k, h, status); }
    }
  }

  lemma RecordedCount(job: Job, h: Host, status: DeploymentStatus)
    requires JobOk(job) && h in job.order
    ensures |job.deployment[h := status]| == |Elements(job.order)|
  {
    assert h in Elements(job.order);
    SameHosts(job.deployment, h, status);
    DeploymentCount(job.(deployment := job.deployment[h := status]));
    VarietyIsCount(job.order);
  }

  lemma ReportAtCursor(store: Store, k: JobKey, h: Host, status: DeploymentStatus)
    requires Filed(store) && k in store.jobs && JobOk(store.jobs[k]) && AtCursor(store.jobs[k], h)
    ensures Hears(store, Apply(store, RestartServiceUpdate(k, h, status)), k, h, status)
  {
    RecordedCount(store.jobs[k], h, status);
  }

  // --- What a log adds up to. ---

  // Where a job comes from: submission i of the log put it there.
  ghost predicate FiledBy(start: Store, log: seq<Command>, i: nat, k: JobKey) {
    && i < |log| && log[i].SubmitJob?
    && k !in Replay(start, log[..i]).store.jobs && k in Apply(Replay(start, log[..i]).store, log[i]).store.jobs
  }

  lemma {:induction false} FiledByExtends(start: Store, log: seq<Command>, c: Command, i: nat, k: JobKey)
    requires i < |log|
    ensures FiledBy(start, log + [c], i, k) <==> FiledBy(start, log, i, k)
  {
    assert (log + [c])[..i] == log[..i];
  }

  lemma OnlySubmissionsFile(store: Store, c: Command, k: JobKey)
    requires StoreOk(store) && k !in store.jobs && k in Apply(store, c).store.jobs
    ensures c.SubmitJob? && Apply(store, c).error == None && k == NextKey(store, c.request)
  {
    if k != Subject(store, c) { ApplyTouchesOneJob(store, c, k); }
  }

  lemma {:induction false} FiledStays(start: Store, log: seq<Command>, i: nat, k: JobKey)
    requires start.jobs == map[] && FiledBy(start, log, i, k)
    ensures k in Replay(start, log).store.jobs
    decreases |log|
  {
    var n := |log| - 1;
    assert log == log[..n] + [log[n]];
    ReplayKeepsStoreOk(start, log[..n]);
    if i < n {
      FiledByExtends(start, log[..n], log[n], i, k);
      FiledStays(start, log[..n], i, k);
      ApplyKeepsSameJob(Replay(start, log[..n]).store, log[n], k);
    }
  }

  // No job is filed twice.
  lemma {:induction false} FiledOnce(start: Store, log: seq<Command>, i: nat, j: nat, k: JobKey)
    requires start.jobs == map[] && FiledBy(start, log, i, k) && FiledBy(start, log, j, k)
    ensures i == j
  {
    if i < j {
      assert log[..j][..i] == log[..i];
      FiledStays(start, log[..j], i, k);
    } else if j < i {
      assert log[..i][..j] == log[..j];
      FiledStays(start, log[..i], j, k);
    }
  }

  // Every job was asked for, and it is still what was asked for.
  lemma {:induction false} EveryJobIsAsAsked(start: Store, log: seq<Command>, k: JobKey) returns (i: nat)
    requires start.jobs == map[] && k in Replay(start, log).store.jobs
    ensures FiledBy(start, log, i, k)
    ensures AsAsked(Replay(start, log).store.jobs[k], Replay(start, log[..i]).store, log[i].request)
    decreases |log|
  {
    var n := |log| - 1;
    var front, c := log[..n], log[n];
    var before := Replay(start, front).store;
    assert log == front + [c];
    ReplayKeepsStoreOk(start, front);
    if k in before.jobs {
      i := EveryJobIsAsAsked(start, front, k);
      FiledByExtends(start, front, c, i, k);
      ApplyKeepsSameJob(before, c, k);
      assert front[..i] == log[..i];
    } else {
      i := n;
      OnlySubmissionsFile(before, c, k);
      var filed := SubmissionFiles(before, c.request);
    }
  }

  // The last configuration report of host h about job k, once the job was there.
  function LastConfiguration(start: Store, log: seq<Command>, k: JobKey, h: Host): ConfigurationStatus {
    if log == [] then ConfigurationPending
    else
      var n := |log| - 1;
      var c := log[n];
      if c.ConfigurationUpdate? && c.key == k && c.host == h && k in Replay(start, log[..n]).store.jobs then
        c.configuration
      else LastConfiguration(start, log[..n], k, h)
  }

  // The last restart report of host h about job k that was heard.
  function LastRestart(start: Store, log: seq<Command>, k: JobKey, h: Host): DeploymentStatus {
    if log == [] then DeploymentPending
    else
      var n := |log| - 1;
      var c, before := log[n], Replay(start, log[..n]).store;
      if c.RestartServiceUpdate? && c.key == k && c.host == h && k in before.jobs && AtCursor(before.jobs[k], h) then
        c.deployment
      else LastRestart(start, log[..n], k, h)
  }

  lemma {:induction false} NothingReportedBefore(start: Store, log: seq<Command>, k: JobKey, h: Host)
    requires start.jobs == map[] && k !in Replay(start, log).store.jobs
    ensures LastConfiguration(start, log, k, h) == ConfigurationPending
    ensures LastRestart(start, log, k, h) == DeploymentPending
    decreases |log|
  {
    if log != [] {
      var n := |log| - 1;
      ReplayKeepsStoreOk(start, log[..n]);
      if k in Replay(start, log[..n]).store.jobs {
        ApplyKeepsSameJob(Replay(start, log[..n]).store, log[n], k);
      }
      NothingReportedBefore(start, log[..n], k, h);
    }
  }

  // What one command does to the two statuses of host h.
  lemma StatusesAfter(store: Store, c: Command, k: JobKey, h: Host)
    requires StoreOk(store) && k in store.jobs && h in store.jobs[k].configuration && h in store.jobs[k].deployment
    ensures var before, after := store.jobs[k], Apply(store, c).store.jobs;
            && k in after && h in after[k].configuration && h in after[k].deployment
            && after[k].configuration[h] ==
                 (if c.ConfigurationUpdate? && c.key == k && c.host == h then c.configuration
                  else before.configuration[h])
            && after[k].deployment[h] ==
                 (if c.RestartServiceUpdate? && c.key == k && c.host == h && AtCursor(before, h) then c.deployment
                  else before.deployment[h])
  {
    ApplyKeepsSameJob(store, c, k);
    if k != Subject(store, c) {
      ApplyTouchesOneJob(store, c, k);
    } else {
      match c {
        case SubmitJob(r) => NextKeyIsNew(store, r);
        case CancelJob(_) => CancellationAnswer(store, k);
        case ConfigurationUpdate(_, g, status) => ConfigurationReportAnswer(store, k, g, status);
        case RestartConfirmation(_) => ConfirmationAnswer(store, k);
        case RestartServiceUpdate(_, g, status) => RestartReportAnswer(store, k, g, status);
      }
    }
  }

  // After every log, the status of a host is the one it reported last, and PENDING before that;
  // for a restart, what it reported last while it was its turn.
  lemma {:induction false} StatusIsLastReport(start: Store, log: seq<Command>, k: JobKey, h: Host)
    requires start.jobs == map[] && k in Replay(start, log).store.jobs && h in Replay(start, log).store.jobs[k].order
    ensures var job := Replay(start, log).store.jobs[k];
            && h in job.configuration && job.configuration[h] == LastConfiguration(start, log, k, h)
            && h in job.deployment && job.deployment[h] == LastRestart(start, log, k, h)
    decreases |log|
  {
    var n := |log| - 1;
    var front, c := log[..n], log[n];
    var before := Replay(start, front).store;
    ReplayKeepsStoreOk(start, front);
    ReplayKeepsStoreOk(start, log);
    assert EntryOk(Replay(start, log).store, k);
    if k in before.jobs {
      ApplyKeepsSameJob(before, c, k);
      StatusIsLastReport(start, front, k, h);
      StatusesAfter(before, c, k, h);
    } else {
      OnlySubmissionsFile(before, c, k);
      NothingReportedBefore(start, front, k, h);
      var filed := SubmissionFiles(before, c.request);
    }
  }

  // --- Cancelled jobs. ---

  // The report that makes the last missing host SUCCESS.
  predicate CompletesBarrier(job: Job, c: Command) {
    && c.ConfigurationUpdate? && c.key == job.key && c.host in job.configuration
    && c.configuration == ConfigurationSuccess
    && forall h :: h in job.configuration && h != c.host ==> job.configuration[h] == ConfigurationSuccess
  }

  // Whether the last cancellation of job k still stands: no report has completed the barrier since.
  predicate CancelStands(start: Store, log: seq<Command>, k: JobKey) {
    if log == [] then false
    else
      var n := |log| - 1;
      var c, before := log[n], Replay(start, log[..n]).store;
      if k !in before.jobs then false
      else if c == CancelJob(k) then true
      else if CompletesBarrier(before.jobs[k], c) then false
      else CancelStands(start, log[..n], k)
  }

  lemma CancelledAfter(store: Store, c: Command, k: JobKey)
    requires StoreOk(store) && k in store.jobs && store.jobs[k].status != Success
    ensures k in Apply(store, c).store.jobs && Apply(store, c).store.jobs[k].status != Success
    ensures Apply(store, c).store.jobs[k].status == Cancelled <==>
              c == CancelJob(k) || (store.jobs[k].status == Cancelled && !CompletesBarrier(store.jobs[k], c))
  {
    ApplyKeepsSameJob(store, c, k);
    if k != Subject(store, c) {
      ApplyTouchesOneJob(store, c, k);
    } else {
      match c {
        case SubmitJob(r) => NextKeyIsNew(store, r);
        case CancelJob(_) => CancellationAnswer(store, k);
        case ConfigurationUpdate(_, g, status) =>
          ConfigurationReportAnswer(store, k, g, status);
          AllConfiguredAfter(store.jobs[k].configuration, g, status);
        case RestartConfirmation(_) => ConfirmationAnswer(store, k);
        case RestartServiceUpdate(_, g, status) => RestartReportAnswer(store, k, g, status);
      }
    }
  }

  // After every log, a job is CANCELLED exactly as long as its last cancellation stands.  It takes
  // effect whatever the job's status was, and nothing undoes it but a completed barrier.
  lemma {:induction false} CancelledExactly(start: Store, log: seq<Command>, k: JobKey)
    requires start.jobs == map[] && k in Replay(start, log).store.jobs
    ensures Replay(start, log).store.jobs[k].status == Cancelled <==> CancelStands(start, log, k)
    ensures Replay(start, log).store.jobs[k].status != Success
    decreases |log|
  {
    var n := |log| - 1;
    var before := Replay(start, log[..n]).store;
    ReplayKeepsStoreOk(start, log[..n]);
    if k in before.jobs {
      CancelledExactly(start, log[..n], k);
      CancelledAfter(before, log[n], k);
    } else {
      OnlySubmissionsFile(before, log[n], k);
      var filed := SubmissionFiles(before, log[n].request);
    }
  }
}
