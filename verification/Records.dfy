/**
 What the jobs on record say about what has really happened on the hosts, in every run.
 */
module Records {
  import opened Entities
  import opened RaftApp
  import opened RaftAppInvariants
  import opened Answers
  import opened Controller
  import opened Cluster
  import opened ClusterInvariant
  import opened ClusterCommit
  import opened ClusterTheorems
  import opened ClusterHistory
  import opened Fate
  import opened Traffic

  // The jobs on record are what the log adds up to.
  lemma {:induction false} RecordIsReplay(s0: Cluster, actions: seq<Action>, s: Cluster)
    requires Initial(s0) && Run(s0, actions, s)
    ensures s.store == Replay(s0.store, s.log).store
  {
    assert MarkOk(s0.store, s0, 0);
    RunKeepsReplayed(s0.store, s0, actions, s);
  }

  // In every run, a job on record is what its submission asked for, each host is on record with
  // what it reported last, and a job is CANCELLED exactly as long as its last cancellation stands.
  lemma {:induction false} RecordIsTrue(s0: Cluster, actions: seq<Action>, s: Cluster, k: JobKey) returns (i: nat)
    requires Initial(s0) && Run(s0, actions, s) && k in s.store.jobs
    ensures FiledBy(s0.store, s.log, i, k)
    ensures AsAsked(s.store.jobs[k], Replay(s0.store, s.log[..i]).store, s.log[i].request)
    ensures forall h :: h in s.store.jobs[k].order ==>
              && h in s.store.jobs[k].configuration && h in s.store.jobs[k].deployment
              && s.store.jobs[k].configuration[h] == LastConfiguration(s0.store, s.log, k, h)
              && s.store.jobs[k].deployment[h] == LastRestart(s0.store, s.log, k, h)
    ensures s.store.jobs[k].status == Cancelled <==> CancelStands(s0.store, s.log, k)
  {
    RecordIsReplay(s0, actions, s);
    i := EveryJobIsAsAsked(s0.store, s.log, k);
    CancelledExactly(s0.store, s.log, k);
    forall h | h in s.store.jobs[k].order
      ensures h in s.store.jobs[k].configuration && h in s.store.jobs[k].deployment
      ensures s.store.jobs[k].configuration[h] == LastConfiguration(s0.store, s.log, k, h)
      ensures s.store.jobs[k].deployment[h] == LastRestart(s0.store, s.log, k, h)
    {
      StatusIsLastReport(s0.store, s.log, k, h);
    }
  }

  // --- Nobody is asked in vain: without believe mode no host restarts. ---

  ghost predicate Unasked(s: Cluster, k: JobKey) {
    && (forall i :: 0 <= i < |s.log| && s.log[i] == RestartConfirmation(k) ==>
          k in s.store.jobs && s.store.jobs[k].believe)
    && (k in s.past && k in s.store.jobs && !s.store.jobs[k].believe ==> s.past[k].started == [])
  }

  lemma OnlyReturnsStart(s: Cluster, t: Cluster, a: Action, k: JobKey)
    requires Enabled(s, a) && !a.Commits? && t == Do(s, a) && k in s.past && k in t.past
    requires a.Returns? && s.nodes[a.host].consumer.Preparing? ==> s.nodes[a.host].consumer.key != k
    ensures t.past[k].started == s.past[k].started
  {
  }

  lemma HostKeepsUnasked(s: Cluster, t: Cluster, a: Action, k: JobKey)
    requires Inv(s) && SoundAt(s, k) && Unasked(s, k) && Enabled(s, a) && !a.Commits? && t == Do(s, a)
    ensures Unasked(t, k)
  {
    OnlyCommitsDecide(s, t, a);
    StepKeepsJobs(s, t, a);
    if k in s.past {
      if a.Returns? { assert ConsumerToken(s, a.host); }
      if !s.store.jobs[k].believe { OnlyReturnsStart(s, t, a, k); }
    }
  }

  lemma CommitStartsNobody(s: Cluster, t: Cluster, id: nat, k: JobKey)
    requires Inv(s) && id in s.flight && t == DoCommit(s, id) && k in t.past
    ensures t.past[k].started == if k in s.past then s.past[k].started else []
  {
    if s.flight[id].SubmitJob? { NextKeyIsNew(s.store, s.flight[id].request); }
  }

  lemma CommitKeepsUnasked(s: Cluster, t: Cluster, id: nat, k: JobKey)
    requires Inv(s) && SoundAt(s, k) && Unasked(s, k) && id in s.flight && t == DoCommit(s, id)
    ensures Unasked(t, k)
  {
    assert FlightToken(s, id);
    if k in s.store.jobs { ApplyKeepsSameJob(s.store, s.flight[id], k); }
    if k in t.past { CommitStartsNobody(s, t, id, k); }
    assert t.log == s.log + [s.flight[id]];
    CommitKeepsKeys(s, t, id);
  }

  lemma {:induction false} RunKeepsUnasked(s: Cluster, actions: seq<Action>, t: Cluster, k: JobKey)
    requires Inv(s) && SoundAt(s, k) && Unasked(s, k) && Run(s, actions, t)
    ensures Inv(t) && SoundAt(t, k) && Unasked(t, k)
    decreases |actions|
  {
    if actions != [] {
      var next := Do(s, actions[0]);
      StepKeepsInv(s, actions[0]);
      StepDecides(s, next, actions[0], k);
      if actions[0].Commits? {
        CommitKeepsUnasked(s, next, actions[0].id, k);
      } else {
        HostKeepsUnasked(s, next, actions[0], k);
      }
      RunKeepsUnasked(next, actions[1..], t, k);
    }
  }

  // A job whose submission did not ask for believe mode is never confirmed by the hosts, and none
  // of its hosts ever starts.
  lemma {:induction false} UnaskedNeverRestarts(s0: Cluster, actions: seq<Action>, s: Cluster, i: nat, k: JobKey)
    requires Initial(s0) && Run(s0, actions, s) && FiledBy(s0.store, s.log, i, k) && !s.log[i].request.believe
    ensures k in s.store.jobs && k in s.past && s.past[k].started == []
    ensures forall j :: 0 <= j < |s.log| ==> s.log[j] != RestartConfirmation(k)
    ensures forall id :: id in s.flight ==> s.flight[id] != RestartConfirmation(k)
  {
    InitialInv(s0);
    RunKeepsUnasked(s0, actions, s, k);
    RecordIsReplay(s0, actions, s);
    FiledStays(s0.store, s.log, i, k);
    var j := EveryJobIsAsAsked(s0.store, s.log, k);
    FiledOnce(s0.store, s.log, i, j, k);
    forall id | id in s.flight ensures s.flight[id] != RestartConfirmation(k) { assert FlightToken(s, id); }
  }

  // --- The verdict of a host reaches the record as it is. ---

  // A command in flight does not change on the way.
  lemma {:induction false} FlightStays(s: Cluster, actions: seq<Action>, t: Cluster, id: nat)
    requires Run(s, actions, t) && id in t.flight && id < s.next
    ensures id in s.flight && s.flight[id] == t.flight[id]
    decreases |actions|
  {
    if actions != [] {
      var next := Do(s, actions[0]);
      StepTalks(s, next, actions[0]);
      NextGrows(s, next, actions[0]);
      FlightStays(next, actions[1..], t, id);
    }
  }

  lemma NextGrows(s: Cluster, t: Cluster, a: Action)
    requires Enabled(s, a) && t == Do(s, a)
    ensures s.next <= t.next
  {
  }

  // What the record of job k says about host h once its restart has ended with `result`.
  predicate RestartOnRecord(before: Job, after: Job, h: Host, result: Result) {
    && h in after.deployment
    && (forall g :: g in before.deployment && g != h ==>
          g in after.deployment && after.deployment[g] == before.deployment[g])
    && match result
       case Succeeded =>
         && after.deployment[h] == DeploymentSuccess && before.cursor.Some?
         && after.cursor == Some(before.cursor.value + 1) && (after.status == Deploying || after.status == Deployed)
       case Errored(false) =>
         after.deployment[h] == DeploymentFailed && after.status == Failed && after.cursor == before.cursor
       case Errored(true) =>
         after.deployment[h] == DeploymentTimeOut && after.status == Deploying && after.cursor == before.cursor
  }

  // However late the report of a restart is applied, it says on record how the restart ended: FAILED
  // ends the job and is announced, TIMEOUT leaves it DEPLOYING, SUCCESS moves it on.  Only a
  // cancellation makes it void.
  lemma {:induction false} RestartEndsOnRecord(s: Cluster, h: Host, result: Result, actions: seq<Action>, u: Cluster)
    requires Reachable(s) && Enabled(s, Finishes(h, result)) && Run(Do(s, Finishes(h, result)), actions, u)
    requires s.next in u.flight
    ensures var k, t := s.nodes[h].consumer.key, DoCommit(u, s.next);
            && k in u.store.jobs && k in t.store.jobs
            && (u.store.jobs[k].status == Cancelled ==> t.store == u.store)
            && (u.store.jobs[k].status != Cancelled ==>
                  && RestartOnRecord(u.store.jobs[k], t.store.jobs[k], h, result)
                  && (result == Errored(false) ==> t.events == u.events + [JobFailed]))
  {
    var k := s.nodes[h].consumer.key;
    ReachableInv(s);
    StepKeepsInv(s, Finishes(h, result));
    RunKeepsInv(Do(s, Finishes(h, result)), actions, u);
    FlightStays(Do(s, Finishes(h, result)), actions, u, s.next);
    VerdictIsHeard(u, s.next, k, h, result);
  }

  lemma VerdictIsHeard(u: Cluster, id: nat, k: JobKey, h: Host, result: Result)
    requires Inv(u) && id in u.flight && u.flight[id] == RestartServiceUpdate(k, h, DeploymentVerdict(result))
    ensures var t := DoCommit(u, id);
            && k in u.store.jobs && k in t.store.jobs
            && (u.store.jobs[k].status == Cancelled ==> t.store == u.store)
            && (u.store.jobs[k].status != Cancelled ==>
                  && RestartOnRecord(u.store.jobs[k], t.store.jobs[k], h, result)
                  && (result == Errored(false) ==> t.events == u.events + [JobFailed]))
  {
    assert FlightToken(u, id);
    JobIsKnown(u, k);
    if u.store.jobs[k].status == Cancelled {
      RestartReportAnswer(u.store, k, h, DeploymentVerdict(result));
    } else {
      VerdictIsRecorded(u.store, k, h, result);
    }
  }

  lemma VerdictIsRecorded(store: Store, k: JobKey, h: Host, result: Result)
    requires Filed(store) && k in store.jobs && JobOk(store.jobs[k]) && AtCursor(store.jobs[k], h)
    ensures var o := Apply(store, RestartServiceUpdate(k, h, DeploymentVerdict(result)));
            && k in o.store.jobs && RestartOnRecord(store.jobs[k], o.store.jobs[k], h, result)
            && (result == Errored(false) ==> o.events == [JobFailed])
  {
    ReportAtCursor(store, k, h, DeploymentVerdict(result));
  }

  predicate ConfigurationOnRecord(before: Job, after: Job, h: Host, result: Result) {
    && h in after.configuration
    && (forall g :: g in before.configuration && g != h ==>
          g in after.configuration && after.configuration[g] == before.configuration[g])
    && match result
       case Succeeded => after.configuration[h] == ConfigurationSuccess
       case Errored(false) => after.configuration[h] == ConfigurationFailed && after.status == before.status
       case Errored(true) => after.configuration[h] == ConfigurationCancelled && after.status == before.status
  }

  // The same for the last report of a configuration task.
  lemma {:induction false} ConfigurationEndsOnRecord(
      s: Cluster, h: Host, k: JobKey, result: Result, actions: seq<Action>, u: Cluster)
    requires Reachable(s) && Enabled(s, Reports(h, k, result)) && Run(Do(s, Reports(h, k, result)), actions, u)
    requires s.next in u.flight
    ensures k in u.store.jobs && k in DoCommit(u, s.next).store.jobs
    ensures ConfigurationOnRecord(u.store.jobs[k], DoCommit(u, s.next).store.jobs[k], h, result)
  {
    ReachableInv(s);
    StepKeepsInv(s, Reports(h, k, result));
    RunKeepsInv(Do(s, Reports(h, k, result)), actions, u);
    FlightStays(Do(s, Reports(h, k, result)), actions, u, s.next);
    ConfigurationVerdictIsHeard(u, s.next, k, h, result);
  }

  lemma ConfigurationVerdictIsHeard(u: Cluster, id: nat, k: JobKey, h: Host, result: Result)
    requires Inv(u) && id in u.flight && u.flight[id] == ConfigurationUpdate(k, h, ConfigurationVerdict(result))
    ensures k in u.store.jobs && k in DoCommit(u, id).store.jobs
    ensures ConfigurationOnRecord(u.store.jobs[k], DoCommit(u, id).store.jobs[k], h, result)
  {
    assert ReportOk(u, id) && TaskOk(u, h, k);
    ConfigurationReportAnswer(u.store, k, h, ConfigurationVerdict(result));
    AllConfiguredAfter(u.store.jobs[k].configuration, h, ConfigurationVerdict(result));
  }

  // --- SUCCESS on record means that the host has been restarted. ---

  // The record of every host but the one at the cursor, whose turn may have begun again when a
  // host repeats, is SUCCESS exactly if it has finished.
  ghost predicate SaysFinished(job: Job, p: Past) {
    && (forall h :: h in job.deployment && job.deployment[h] == DeploymentSuccess ==> h in p.finished)
    && (forall h :: h in job.deployment && h in p.finished && !ItsTurn(job, h) ==>
          job.deployment[h] == DeploymentSuccess)
  }

  predicate ItsTurn(job: Job, h: Host) {
    job.cursor.Some? && job.cursor.value < |job.order| && job.order[job.cursor.value] == h
  }

  ghost predicate SaysFinishedAt(s: Cluster, k: JobKey) {
    k in s.past && k in s.store.jobs ==> SaysFinished(s.store.jobs[k], s.past[k])
  }

  lemma OnlyCommitsFinish(s: Cluster, t: Cluster, a: Action, k: JobKey)
    requires Enabled(s, a) && !a.Commits? && t == Do(s, a) && k in s.past && k in t.past
    ensures t.past[k].finished == s.past[k].finished
  {
  }

  lemma CommitOfOtherSaysFinished(s: Cluster, t: Cluster, id: nat, k: JobKey)
    requires Shape(s) && id in s.flight && t == DoCommit(s, id) && k != Subject(s.store, s.flight[id])
    requires SaysFinishedAt(s, k)
    ensures SaysFinishedAt(t, k)
  {
    CommitIsCommitted(s, t, id);
    ApplyTouchesOneJob(s.store, s.flight[id], k);
  }

  lemma NewJobSaysFinished(s: Cluster, t: Cluster, id: nat, k: JobKey)
    requires Shape(s) && id in s.flight && s.flight[id].SubmitJob? && t == DoCommit(s, id)
    requires k == NextKey(s.store, s.flight[id].request)
    ensures SaysFinishedAt(t, k)
  {
    NextKeyIsNew(s.store, s.flight[id].request);
    if Apply(s.store, s.flight[id]).error == None {
      var filed := SubmissionFiles(s.store, s.flight[id].request);
    }
  }

  // Commands that leave the cursor and the statuses of the restarts as they are.
  lemma CancelSaysFinished(s: Cluster, t: Cluster, id: nat, k: JobKey)
    requires Filed(s.store) && id in s.flight && s.flight[id] == CancelJob(k) && t == DoCommit(s, id)
    requires SaysFinishedAt(s, k) && (k in s.past <==> k in s.store.jobs)
    ensures SaysFinishedAt(t, k)
  {
    CancellationAnswer(s.store, k);
  }

  lemma ConfigurationSaysFinished(s: Cluster, t: Cluster, id: nat, k: JobKey)
    requires Filed(s.store) && id in s.flight && s.flight[id].ConfigurationUpdate? && s.flight[id].key == k
    requires t == DoCommit(s, id) && SaysFinishedAt(s, k) && (k in s.past <==> k in s.store.jobs)
    ensures SaysFinishedAt(t, k)
  {
    ConfigurationReportAnswer(s.store, k, s.flight[id].host, s.flight[id].configuration);
  }

  // The first confirmation sets the cursor, when nobody has finished yet.
  lemma ConfirmationSaysFinished(s: Cluster, t: Cluster, id: nat, k: JobKey)
    requires StoreOk(s.store) && id in s.flight && s.flight[id] == RestartConfirmation(k) && t == DoCommit(s, id)
    requires SaysFinishedAt(s, k) && (k in s.past <==> k in s.store.jobs)
    requires k in s.past && LinkOk(s, k) && s.past[k].token == Confirmation(id)
    ensures SaysFinishedAt(t, k)
  {
    ConfirmationAnswer(s.store, k);
  }

  // A restart report is heard at the cursor only, and a SUCCESS there is what finishes.
  lemma HeardSaysFinished(job: Job, after: Job, p: Past, q: Past, h: Host, status: DeploymentStatus)
    requires SaysFinished(job, p) && ItsTurn(job, h) && h in job.deployment
    requires after.order == job.order && after.deployment == job.deployment[h := status]
    requires if status == DeploymentSuccess then
               after.cursor == Some(job.cursor.value + 1) && q.finished == p.finished + [h]
             else after.cursor == job.cursor && q.finished == p.finished
    ensures SaysFinished(after, q)
  {
  }

  lemma HeardIsPast(s: Cluster, t: Cluster, id: nat, k: JobKey)
    requires id in s.flight && s.flight[id].RestartServiceUpdate? && s.flight[id].key == k && t == DoCommit(s, id)
    requires k in s.past && Apply(s.store, s.flight[id]).error == None
    ensures k in t.past
    ensures t.past[k].finished ==
              s.past[k].finished + if s.flight[id].deployment == DeploymentSuccess then [s.flight[id].host] else []
  {
    assert t.past[k] == PastAfter(s.past[k], s.flight[id], Apply(s.store, s.flight[id]), |s.events|);
  }

  // What a commit that is heard makes of the job.
  lemma HeardJob(s: Cluster, t: Cluster, id: nat, k: JobKey, h: Host, status: DeploymentStatus)
    requires id in s.flight && s.flight[id] == RestartServiceUpdate(k, h, status) && t == DoCommit(s, id)
    requires Filed(s.store) && k in s.store.jobs && JobOk(s.store.jobs[k]) && AtCursor(s.store.jobs[k], h)
    ensures Apply(s.store, s.flight[id]).error == None && k in t.store.jobs
    ensures var job, after := s.store.jobs[k], t.store.jobs[k];
            && after.order == job.order && h in job.deployment && after.deployment == job.deployment[h := status]
            && after.cursor == if status == DeploymentSuccess then Some(job.cursor.value + 1) else job.cursor
  {
    ReportAtCursor(s.store, k, h, status);
    assert h in Elements(s.store.jobs[k].order);
  }

  lemma UnheardIsNothing(s: Cluster, t: Cluster, id: nat, k: JobKey)
    requires StoreOk(s.store) && id in s.flight && s.flight[id].RestartServiceUpdate? && s.flight[id].key == k
    requires t == DoCommit(s, id) && k in s.past && k in s.store.jobs
    requires !AtCursor(s.store.jobs[k], s.flight[id].host)
    ensures t.store == s.store && k in t.past && t.past[k].finished == s.past[k].finished
  {
    RestartReportAnswer(s.store, k, s.flight[id].host, s.flight[id].deployment);
  }

  lemma ReportSaysFinished(s: Cluster, t: Cluster, id: nat, k: JobKey)
    requires StoreOk(s.store) && id in s.flight && s.flight[id].RestartServiceUpdate? && s.flight[id].key == k
    requires t == DoCommit(s, id) && k in s.past && k in s.store.jobs && SaysFinishedAt(s, k)
    ensures SaysFinishedAt(t, k)
  {
    var c := s.flight[id];
    assert EntryOk(s.store, k);
    if AtCursor(s.store.jobs[k], c.host) {
      HeardJob(s, t, id, k, c.host, c.deployment);
      HeardIsPast(s, t, id, k);
      HeardSaysFinished(s.store.jobs[k], t.store.jobs[k], s.past[k], t.past[k], c.host, c.deployment);
    } else {
      UnheardIsNothing(s, t, id, k);
    }
  }

  lemma NobodysCommitSaysFinished(s: Cluster, t: Cluster, id: nat, k: JobKey)
    requires Shape(s) && id in s.flight && !s.flight[id].SubmitJob? && s.flight[id].key == k && k !in s.past
    requires t == DoCommit(s, id)
    ensures SaysFinishedAt(t, k)
  {
  }

  lemma CommitSaysFinished(s: Cluster, t: Cluster, id: nat, k: JobKey)
    requires Inv(s) && SaysFinishedAt(s, k) && id in s.flight && t == DoCommit(s, id)
    ensures SaysFinishedAt(t, k)
  {
    if k != Subject(s.store, s.flight[id]) {
      CommitOfOtherSaysFinished(s, t, id, k);
    } else if s.flight[id].SubmitJob? {
      NewJobSaysFinished(s, t, id, k);
    } else if k !in s.past {
      NobodysCommitSaysFinished(s, t, id, k);
    } else {
      assert FlightToken(s, id) && LinkOk(s, k);
      match s.flight[id] {
        case CancelJob(_) => CancelSaysFinished(s, t, id, k);
        case ConfigurationUpdate(_, _, _) => ConfigurationSaysFinished(s, t, id, k);
        case RestartConfirmation(_) => ConfirmationSaysFinished(s, t, id, k);
        case RestartServiceUpdate(_, _, _) => ReportSaysFinished(s, t, id, k);
      }
    }
  }

  lemma StepSaysFinished(s: Cluster, t: Cluster, a: Action, k: JobKey)
    requires Inv(s) && SaysFinishedAt(s, k) && Enabled(s, a) && t == Do(s, a)
    ensures SaysFinishedAt(t, k)
  {
    if a.Commits? {
      CommitSaysFinished(s, t, a.id, k);
    } else {
      OnlyCommitsDecide(s, t, a);
      StepKeepsJobs(s, t, a);
      if k in s.past { OnlyCommitsFinish(s, t, a, k); }
    }
  }

  lemma {:induction false} RunSaysFinished(s: Cluster, actions: seq<Action>, t: Cluster, k: JobKey)
    requires Inv(s) && SaysFinishedAt(s, k) && Run(s, actions, t)
    ensures Inv(t) && SaysFinishedAt(t, k)
    decreases |actions|
  {
    if actions != [] {
      StepKeepsInv(s, actions[0]);
      StepSaysFinished(s, Do(s, actions[0]), actions[0], k);
      RunSaysFinished(Do(s, actions[0]), actions[1..], t, k);
    }
  }

  // In every reachable state: a host that is SUCCESS on record has entered Deploy and come out of
  // it with success.  The converse holds unless it is the host's turn once more, so for every host
  // if no host repeats.
  lemma {:induction false} SuccessIsEarned(s: Cluster, k: JobKey, h: Host)
    requires Reachable(s) && k in s.store.jobs && h in s.store.jobs[k].order
    ensures k in s.past && h in s.store.jobs[k].deployment
    ensures s.store.jobs[k].deployment[h] == DeploymentSuccess ==> h in s.past[k].finished
    ensures !ItsTurn(s.store.jobs[k], h) || Distinct(s.store.jobs[k].order) ==>
              (s.store.jobs[k].deployment[h] == DeploymentSuccess <==> h in s.past[k].finished)
  {
    var s0: Cluster, actions: seq<Action> :| Initial(s0) && Run(s0, actions, s);
    InitialInv(s0);
    RunSaysFinished(s0, actions, s, k);
    JobIsKnown(s, k);
    assert h in Elements(s.store.jobs[k].order);
  }
}
