/**
 Committing a command keeps the invariant.  A commit changes one job and consumes one command;
 what it means for everything else is shown once, then each kind of command shows its own part: a
 submission, commands that do not move the token, a configuration report, a confirmation, and a
 restart report.
 */
module ClusterCommit {
  import opened Entities
  import opened RaftApp
  import opened RaftAppInvariants
  import opened Controller
  import opened Cluster
  import opened ClusterInvariant

  // The commit of command `id`, which is about job k.
  ghost predicate Committed(s: Cluster, t: Cluster, id: nat, k: JobKey) {
    && id in s.flight
    && (s.flight[id].SubmitJob? || s.flight[id].key == k)
    && t.flight == s.flight - {id} && t.nodes == s.nodes && t.next == s.next
    && s.events <= t.events
    && (forall j :: j != k ==> (j in t.past <==> j in s.past))
    && (forall j :: j in s.past && j != k ==> t.past[j] == s.past[j])
    && (k in s.past ==> k in t.past && t.past[k].born == s.past[k].born && t.past[k].executed == s.past[k].executed)
  }

  // The token of k stays, or was at the barrier or on the command.
  ghost predicate TokenLeaves(s: Cluster, t: Cluster, id: nat, k: JobKey) {
    k in s.past && k in t.past && t.past[k].token != s.past[k].token ==>
      s.past[k].token == AtBarrier || s.past[k].token == Confirmation(id) || s.past[k].token == Judged(id)
  }

  lemma CommitKeepsTokens(s: Cluster, t: Cluster, id: nat, k: JobKey)
    requires Committed(s, t, id, k) && TokenLeaves(s, t, id, k) && Tokens(s)
    requires forall e: nat :: |s.events| <= e < |t.events| ==> EventToken(t, e)
    requires k in t.past ==> Backed(t, k)
    ensures Tokens(t)
  {
    forall e: nat | e < |t.events| ensures EventToken(t, e) {
      if e < |s.events| { assert EventToken(s, e) && t.events[e] == s.events[e]; }
    }
    forall i | i in t.flight ensures FlightToken(t, i) { assert FlightToken(s, i); }
    forall h | h in t.nodes ensures ConsumerToken(t, h) { assert ConsumerToken(s, h); }
    forall j | j in t.past ensures Backed(t, j) {
      if j != k { assert Backed(s, j); }
    }
  }

  lemma CommitKeepsSpeaker(s: Cluster, t: Cluster, id: nat, k: JobKey, j: JobKey)
    requires Committed(s, t, id, k) && j in s.past && j != k && Backed(s, j)
    ensures j in t.past && Speaker(t, t.past[j].token) == Speaker(s, s.past[j].token)
  {
  }

  lemma CommitKeepsLinks(s: Cluster, t: Cluster, id: nat, k: JobKey)
    requires Committed(s, t, id, k) && Tokens(s)
    requires s.past.Keys == s.store.jobs.Keys && t.past.Keys == t.store.jobs.Keys && Links(s)
    requires forall j :: j in s.past && j != k ==> t.store.jobs[j] == s.store.jobs[j]
    requires k in t.past ==> LinkOk(t, k)
    ensures Links(t)
  {
    forall j | j in t.past ensures LinkOk(t, j) {
      if j != k {
        assert LinkOk(s, j) && Backed(s, j);
        CommitKeepsSpeaker(s, t, id, k, j);
      }
    }
  }

  lemma CommitKeepsBarriers(s: Cluster, t: Cluster, id: nat, k: JobKey)
    requires Committed(s, t, id, k)
    requires s.past.Keys == s.store.jobs.Keys && t.past.Keys == t.store.jobs.Keys && Barriers(s)
    requires forall j :: j in s.past && j != k ==> t.store.jobs[j] == s.store.jobs[j]
    requires k in t.past ==> BarrierOk(t.store.jobs[k], t.past[k])
    requires k in t.past ==> forall h :: ConfiguredOk(t, k, h)
    ensures Barriers(t)
  {
    forall i | i in t.flight ensures ReportOk(t, i) { assert ReportOk(s, i); }
    forall j, h | j in t.past ensures ConfiguredOk(t, j, h) {
      if j != k { assert ConfiguredOk(s, j, h); }
    }
    forall j | j in t.past ensures BarrierOk(t.store.jobs[j], t.past[j]) {
      if j != k { assert BarrierOk(s.store.jobs[j], s.past[j]); }
    }
  }

  lemma CommitKeepsPools(s: Cluster, t: Cluster, id: nat, k: JobKey)
    requires Committed(s, t, id, k) && Shape(s) && Pools(s)
    requires t.past.Keys == t.store.jobs.Keys
    requires forall j :: j in s.past && j in s.store.jobs ==>
             j in t.store.jobs && SameJob(s.store.jobs[j], t.store.jobs[j])
    requires k in t.past && k !in s.past ==> t.past[k].born >= |s.events|
    ensures Pools(t)
  {
    forall h, j | h in t.nodes && j in t.past ensures JoinedOk(t, h, j) {
      assert QueueOk(s, h);
      if j in s.past { assert JoinedOk(s, h, j); }
    }
    forall h, j | h in t.nodes && j in t.nodes[h].tasks ensures TaskOk(t, h, j) { assert TaskOk(s, h, j); }
  }

  lemma CommitKeepsSnapshots(s: Cluster, t: Cluster, id: nat, k: JobKey)
    requires Committed(s, t, id, k) && Snapshots(s)
    requires forall j :: j in s.past && j in s.store.jobs ==>
             j in t.store.jobs && SameJob(s.store.jobs[j], t.store.jobs[j])
    requires forall e: nat :: |s.events| <= e < |t.events| ==> SnapshotOk(t, e)
    requires k in t.past && k !in s.past ==> BornOk(t, k)
    ensures Snapshots(t)
  {
    forall e: nat | e < |t.events| ensures SnapshotOk(t, e) {
      if e < |s.events| { assert SnapshotOk(s, e) && t.events[e] == s.events[e]; }
    }
    forall j | j in t.past ensures BornOk(t, j) {
      if j in s.past { assert BornOk(s, j); }
    }
  }

  // --- The log and the store. ---

  lemma CommitKeepsShape(s: Cluster, t: Cluster, id: nat)
    requires Shape(s) && id in s.flight && t == DoCommit(s, id)
    ensures Shape(t)
  {
    var c := s.flight[id];
    ApplyKeepsStoreOk(s.store, c);
    forall h | h in t.nodes ensures QueueOk(t, h) { assert QueueOk(s, h); }
    CommitKeepsKeys(s, t, id);
  }

  lemma CommitKeepsKeys(s: Cluster, t: Cluster, id: nat)
    requires StoreOk(s.store) && s.past.Keys == s.store.jobs.Keys && id in s.flight && t == DoCommit(s, id)
    ensures t.past.Keys == t.store.jobs.Keys
  {
    var c := s.flight[id];
    forall j ensures j in t.past <==> j in t.store.jobs {
      if j != Subject(s.store, c) {
        ApplyTouchesOneJob(s.store, c, j);
      } else if j in s.store.jobs {
        ApplyKeepsSameJob(s.store, c, j);
      }
    }
  }

  // What each kind of command has to show about its own job.
  ghost predicate Fits(s: Cluster, t: Cluster, id: nat, k: JobKey)
    requires t.past.Keys == t.store.jobs.Keys
  {
    && TokenLeaves(s, t, id, k)
    && (forall e: nat :: |s.events| <= e < |t.events| ==> EventToken(t, e) && SnapshotOk(t, e))
    && (k in t.past ==>
          && Backed(t, k) && LinkOk(t, k) && BarrierOk(t.store.jobs[k], t.past[k])
          && (forall h :: ConfiguredOk(t, k, h))
          && (k !in s.past ==> t.past[k].born >= |s.events| && BornOk(t, k)))
  }

  lemma CommitIsCommitted(s: Cluster, t: Cluster, id: nat)
    requires Shape(s) && id in s.flight && t == DoCommit(s, id)
    ensures Committed(s, t, id, Subject(s.store, s.flight[id]))
  {
    if s.flight[id].SubmitJob? { NextKeyIsNew(s.store, s.flight[id].request); }
  }

  lemma CommitKeepsOtherJobs(s: Cluster, t: Cluster, id: nat)
    requires Shape(s) && id in s.flight && t == DoCommit(s, id)
    ensures forall j :: j in s.past && j != Subject(s.store, s.flight[id]) ==>
            j in t.store.jobs && t.store.jobs[j] == s.store.jobs[j]
    ensures forall j :: j in s.past ==> j in t.store.jobs && SameJob(s.store.jobs[j], t.store.jobs[j])
  {
    var c := s.flight[id];
    forall j | j in s.past && j != Subject(s.store, c) ensures j in t.store.jobs && t.store.jobs[j] == s.store.jobs[j] {
      ApplyTouchesOneJob(s.store, c, j);
    }
    forall j | j in s.past ensures j in t.store.jobs && SameJob(s.store.jobs[j], t.store.jobs[j]) {
      ApplyKeepsSameJob(s.store, c, j);
    }
  }

  lemma FitsKeepsInv(s: Cluster, t: Cluster, id: nat)
    requires Inv(s) && id in s.flight && t == DoCommit(s, id)
    requires t.past.Keys == t.store.jobs.Keys && Fits(s, t, id, Subject(s.store, s.flight[id]))
    ensures Inv(t)
  {
    var k := Subject(s.store, s.flight[id]);
    CommitKeepsShape(s, t, id);
    CommitIsCommitted(s, t, id);
    CommitKeepsOtherJobs(s, t, id);
    CommitKeepsSnapshots(s, t, id, k);
    CommitKeepsPools(s, t, id, k);
    CommitKeepsBarriers(s, t, id, k);
    CommitKeepsTokens(s, t, id, k);
    CommitKeepsLinks(s, t, id, k);
  }

  // --- A submission. ---

  // A new job, with its record and its announcement.
  ghost predicate Created(s: Cluster, t: Cluster, k: JobKey) {
    && k !in s.past && k in t.store.jobs && t.store.jobs[k].key == k
    && t.store.jobs[k].status == Queued && t.store.jobs[k].cursor == None
    && (forall h :: h in t.store.jobs[k].configuration ==> t.store.jobs[k].configuration[h] == ConfigurationPending)
    && t.past == s.past[k := Past(AtBarrier, {}, {}, [], [], 1, |s.events|)]
    && t.events == s.events + [JobCreated(t.store.jobs[k])]
  }

  lemma CreatesJob(s: Cluster, t: Cluster, id: nat, k: JobKey)
    requires Shape(s) && id in s.flight && t == DoCommit(s, id) && s.flight[id].SubmitJob?
    requires k == NextKey(s.store, s.flight[id].request)
    ensures Created(s, t, k) || (t.past == s.past && t.events == s.events && k !in s.past)
  {
    NextKeyIsNew(s.store, s.flight[id].request);
  }

  lemma CreatedFits(s: Cluster, t: Cluster, id: nat, k: JobKey)
    requires Created(s, t, k) && t.past.Keys == t.store.jobs.Keys
    ensures Fits(s, t, id, k)
  {
  }

  lemma SubmitFits(s: Cluster, t: Cluster, id: nat)
    requires Shape(s) && id in s.flight && t == DoCommit(s, id) && s.flight[id].SubmitJob?
    requires t.past.Keys == t.store.jobs.Keys
    ensures Fits(s, t, id, NextKey(s.store, s.flight[id].request))
  {
    var k := NextKey(s.store, s.flight[id].request);
    CreatesJob(s, t, id, k);
    if Created(s, t, k) { CreatedFits(s, t, id, k); }
  }

  // --- Commands that do not move the token. ---

  // The command leaves the record of k alone, or ends it by taking a token that was on the command.
  ghost predicate Settles(s: Cluster, t: Cluster, id: nat, k: JobKey) {
    && k in s.past && k in s.store.jobs && k in t.past && k in t.store.jobs
    && id in s.flight && t.flight == s.flight - {id} && t.nodes == s.nodes && s.events <= t.events
    && SameJob(s.store.jobs[k], t.store.jobs[k])
    && t.store.jobs[k].configuration == s.store.jobs[k].configuration
    && t.store.jobs[k].cursor == s.store.jobs[k].cursor
    && (|| (t.past[k] == s.past[k] && s.past[k].token != Confirmation(id) && s.past[k].token != Judged(id)
              && (t.store.jobs[k].status == s.store.jobs[k].status || t.store.jobs[k].status == Cancelled))
        || (t.past[k] == s.past[k].(token := Spent) &&
             (s.past[k].token == Confirmation(id) || s.past[k].token == Judged(id))
              && t.store.jobs[k].status != Deployed))
    && (forall e: nat :: |s.events| <= e < |t.events| ==> Report(t.events[e], t.store.jobs[k]))
  }

  // An event that tells about `job`, and lets nobody do anything.
  predicate Report(e: Event, job: Job) {
    e.JobFailed? || (!e.JobCreated? && !e.RestartConfirmed? && !IsTrigger(e) && e.job == job)
  }

  lemma SettledFits(s: Cluster, t: Cluster, id: nat, k: JobKey)
    requires Settles(s, t, id, k) && t.past.Keys == t.store.jobs.Keys
    requires t.store.jobs[k].key == k && s.past[k].born < |s.events|
    requires Backed(s, k) && LinkOk(s, k) && BarrierOk(s.store.jobs[k], s.past[k])
    requires forall h :: ConfiguredOk(s, k, h)
    ensures Fits(s, t, id, k)
  {
    forall h ensures ConfiguredOk(t, k, h) { assert ConfiguredOk(s, k, h); }
    if t.past[k] == s.past[k] {
      assert Speaker(t, t.past[k].token) == Speaker(s, s.past[k].token);
    }
  }

  // A command about a job that does not exist.
  lemma NobodysCommandFits(s: Cluster, t: Cluster, id: nat, k: JobKey)
    requires id in s.flight && t == DoCommit(s, id) && !s.flight[id].SubmitJob? && s.flight[id].key == k
    requires s.past.Keys == s.store.jobs.Keys && t.past.Keys == t.store.jobs.Keys && k !in s.past
    ensures Fits(s, t, id, k)
  {
  }

  lemma CancelSettles(s: Cluster, t: Cluster, id: nat, k: JobKey)
    requires id in s.flight && t == DoCommit(s, id) && s.flight[id] == CancelJob(k)
    requires k in s.past && k in s.store.jobs && s.store.jobs[k].key == k && Backed(s, k)
    ensures Settles(s, t, id, k)
  {
  }

  // A restart report that is not a verdict.
  lemma NewsSettles(s: Cluster, t: Cluster, id: nat, k: JobKey, h: Host, status: DeploymentStatus)
    requires id in s.flight && t == DoCommit(s, id) && s.flight[id] == RestartServiceUpdate(k, h, status)
    requires k in s.past && k in s.store.jobs && s.store.jobs[k].key == k && !Verdict(status)
    requires s.past[k].token != Confirmation(id) && s.past[k].token != Judged(id)
    requires k in t.store.jobs && SameJob(s.store.jobs[k], t.store.jobs[k])
    ensures Settles(s, t, id, k)
  {
  }

  lemma RefusedConfirmationSettles(s: Cluster, t: Cluster, id: nat, k: JobKey)
    requires id in s.flight && t == DoCommit(s, id) && s.flight[id] == RestartConfirmation(k)
    requires k in s.past && k in s.store.jobs && s.store.jobs[k].key == k
    requires s.past[k].token == Confirmation(id) && s.store.jobs[k].status == Cancelled
    ensures Settles(s, t, id, k)
  {
  }

  // What the state machine makes of a verdict that fails or comes too late.
  lemma BadVerdictAnswer(store: Store, k: JobKey, h: Host, status: DeploymentStatus)
    requires k in store.jobs && store.jobs[k].key == k && Verdict(status)
    requires store.jobs[k].status == Deploying || store.jobs[k].status == Cancelled
    requires status != DeploymentSuccess || store.jobs[k].status == Cancelled
    ensures var o := Apply(store, RestartServiceUpdate(k, h, status));
            && k in o.store.jobs && o.store.jobs[k].status != Deployed
            && o.store.jobs[k].configuration == store.jobs[k].configuration
            && o.store.jobs[k].cursor == store.jobs[k].cursor
            && (forall i :: 0 <= i < |o.events| ==> Report(o.events[i], o.store.jobs[k]))
            && (o.error == None ==> status != DeploymentSuccess)
  {
  }

  lemma BadVerdictSettles(s: Cluster, t: Cluster, id: nat, k: JobKey, h: Host, status: DeploymentStatus)
    requires id in s.flight && t == DoCommit(s, id) && s.flight[id] == RestartServiceUpdate(k, h, status)
    requires k in s.past && k in s.store.jobs && s.store.jobs[k].key == k
    requires s.past[k].token == Judged(id)
    requires s.store.jobs[k].status == Deploying || s.store.jobs[k].status == Cancelled
    requires Verdict(status) && (status != DeploymentSuccess || s.store.jobs[k].status == Cancelled)
    requires k in t.store.jobs && SameJob(s.store.jobs[k], t.store.jobs[k])
    ensures Settles(s, t, id, k)
  {
    BadVerdictAnswer(s.store, k, h, status);
    assert t.past[k] == s.past[k].(token := Spent);
  }

  // --- A configuration report. ---

  // What the invariant knows about a configuration report in flight.
  ghost predicate ReportKnown(s: Cluster, id: nat, k: JobKey, h: Host, status: ConfigurationStatus) {
    && id in s.flight && s.flight[id] == ConfigurationUpdate(k, h, status)
    && s.past.Keys == s.store.jobs.Keys && Filed(s.store)
    && ReportOk(s, id) && k in s.past && TaskOk(s, h, k) && ConfiguredOk(s, k, h)
    && Backed(s, k) && LinkOk(s, k) && BarrierOk(s.store.jobs[k], s.past[k])
    && QueueOk(s, h) && s.marks[s.nodes[h].applied] <= |s.events|
    && s.past[k].born < |s.events|
  }

  // A SUCCESS is applied only once, so while it is in flight the barrier is down.
  lemma SuccessFindsBarrier(s: Cluster, id: nat, k: JobKey, h: Host)
    requires ReportKnown(s, id, k, h, ConfigurationSuccess)
    ensures h !in s.past[k].configured && s.past[k].token == AtBarrier
  {
  }

  lemma ReportConfigured(s: Cluster, t: Cluster, id: nat, k: JobKey, h: Host, status: ConfigurationStatus)
    requires ReportKnown(s, id, k, h, status) && t == DoCommit(s, id)
    requires forall g :: ConfiguredOk(s, k, g)
    ensures k in t.past && forall g :: ConfiguredOk(t, k, g)
  {
    forall g ensures ConfiguredOk(t, k, g) { assert ConfiguredOk(s, k, g); }
  }

  // What a configuration report, in time, makes of the job and its past.
  ghost predicate Noted(s: Cluster, t: Cluster, id: nat, k: JobKey, h: Host, status: ConfigurationStatus, last: bool) {
    && k in s.past && k in s.store.jobs && k in t.past && k in t.store.jobs
    && t.nodes == s.nodes && t.flight == s.flight - {id}
    && h in s.store.jobs[k].configuration
    && (var after := s.store.jobs[k].configuration[h := status];
        var seen := if status == ConfigurationSuccess then s.past[k].configured + {h} else s.past[k].configured;
        && (last <==> AllConfigured(after))
        && t.store.jobs[k] ==
             s.store.jobs[k].(configuration := after, status := if last then Configured else s.store.jobs[k].status)
        && t.events == s.events + [HostConfigured(t.store.jobs[k], h)]
             + (if last then [AllHostConfigured(t.store.jobs[k], h)] else [])
        && t.past[k] == s.past[k].(configured := seen,
             token := if !last then s.past[k].token
                      else if t.store.jobs[k].believe then Triggered(|s.events| + 1)
                      else Spent))
  }

  lemma ReportIsNoted(s: Cluster, t: Cluster, id: nat, k: JobKey, h: Host, status: ConfigurationStatus)
    requires id in s.flight && t == DoCommit(s, id) && s.flight[id] == ConfigurationUpdate(k, h, status)
    requires k in s.past && k in s.store.jobs && s.store.jobs[k].key == k && h in s.store.jobs[k].configuration
    ensures Noted(s, t, id, k, h, status, AllConfigured(s.store.jobs[k].configuration[h := status]))
  {
  }

  lemma EarlyReportFits(s: Cluster, t: Cluster, id: nat, k: JobKey, h: Host, status: ConfigurationStatus)
    requires ReportKnown(s, id, k, h, status) && Noted(s, t, id, k, h, status, false)
    requires t.past.Keys == t.store.jobs.Keys
    requires forall g :: ConfiguredOk(t, k, g)
    ensures Fits(s, t, id, k)
  {
    EarlyReportKeepsLink(s, t, id, k, h, status);
  }

  lemma EarlyReportKeepsLink(s: Cluster, t: Cluster, id: nat, k: JobKey, h: Host, status: ConfigurationStatus)
    requires Noted(s, t, id, k, h, status, false) && id in s.flight && s.flight[id].ConfigurationUpdate?
    requires LinkOk(s, k) && Backed(s, k) && s.events <= t.events
    ensures LinkOk(t, k) && Backed(t, k)
  {
    assert Speaker(t, t.past[k].token) == Speaker(s, s.past[k].token);
  }

  lemma LastReportFits(s: Cluster, t: Cluster, id: nat, k: JobKey, h: Host)
    requires ReportKnown(s, id, k, h, ConfigurationSuccess) && Noted(s, t, id, k, h, ConfigurationSuccess, true)
    requires t.past.Keys == t.store.jobs.Keys
    requires forall g :: ConfiguredOk(t, k, g)
    requires s.past[k].token == AtBarrier
    ensures Fits(s, t, id, k)
  {
  }

  lemma ReportFits(s: Cluster, t: Cluster, id: nat, k: JobKey, h: Host, status: ConfigurationStatus)
    requires ReportKnown(s, id, k, h, status) && t == DoCommit(s, id)
    requires t.past.Keys == t.store.jobs.Keys
    requires forall g :: ConfiguredOk(s, k, g)
    ensures Fits(s, t, id, k)
  {
    var before := s.store.jobs[k].configuration;
    ReportConfigured(s, t, id, k, h, status);
    AllConfiguredAfter(before, h, status);
    ReportIsNoted(s, t, id, k, h, status);
    if AllConfigured(before[h := status]) {
      SuccessFindsBarrier(s, id, k, h);
      LastReportFits(s, t, id, k, h);
    } else {
      EarlyReportFits(s, t, id, k, h, status);
    }
  }

  // --- A confirmation. ---

  // What the invariant knows about a confirmation or a verdict in flight.
  ghost predicate TokenKnown(s: Cluster, t: Cluster, id: nat, k: JobKey) {
    && id in s.flight && t == DoCommit(s, id)
    && s.past.Keys == s.store.jobs.Keys && t.past.Keys == t.store.jobs.Keys
    && k in s.past && Filed(s.store) && JobOk(s.store.jobs[k]) && s.past[k].born < |s.events|
    && FlightToken(s, id) && Backed(s, k) && LinkOk(s, k) && BarrierOk(s.store.jobs[k], s.past[k])
    && (forall h :: ConfiguredOk(s, k, h))
    && (forall h :: h in s.nodes ==> s.nodes[h].handled <= |s.events|)
  }

  // Once the barrier is passed, every host of the order is a host of the cluster.
  lemma HostAtCursorRuns(s: Cluster, k: JobKey, c: nat)
    requires k in s.past && k in s.store.jobs && JobOk(s.store.jobs[k]) && BarrierOk(s.store.jobs[k], s.past[k])
    requires s.past[k].token != AtBarrier && c < |s.store.jobs[k].order|
    requires forall h :: ConfiguredOk(s, k, h)
    ensures s.store.jobs[k].order[c] in s.nodes
  {
    var h := s.store.jobs[k].order[c];
    assert h in s.store.jobs[k].configuration;
    assert ConfiguredOk(s, k, h);
  }

  // What an accepted confirmation makes of the job and its past.
  ghost predicate LetThrough(s: Cluster, t: Cluster, id: nat, k: JobKey, step: nat) {
    && k in s.past && k in s.store.jobs && k in t.past && k in t.store.jobs
    && t.nodes == s.nodes && t.flight == s.flight - {id}
    && step < |s.store.jobs[k].order|
    && step == (if s.store.jobs[k].cursor == None then 0 else s.store.jobs[k].cursor.value)
    && t.store.jobs[k] == s.store.jobs[k].(status := Deploying, cursor := Some(step))
    && t.events == s.events + [RestartConfirmed(t.store.jobs[k], s.store.jobs[k].order[step], step)]
    && t.past[k] == s.past[k].(token := Permission(|s.events|))
  }

  lemma ConfirmationLetsThrough(s: Cluster, t: Cluster, id: nat, k: JobKey, step: nat)
    requires id in s.flight && t == DoCommit(s, id) && s.flight[id] == RestartConfirmation(k)
    requires k in s.past && k in s.store.jobs && s.store.jobs[k].key == k
    requires Between(s.store.jobs[k], s.past[k]) && s.store.jobs[k].status != Cancelled
    requires step == (if s.store.jobs[k].cursor == None then 0 else s.store.jobs[k].cursor.value)
    requires step < |s.store.jobs[k].order|
    ensures LetThrough(s, t, id, k, step)
  {
  }

  lemma LetThroughFits(s: Cluster, t: Cluster, id: nat, k: JobKey, step: nat)
    requires LetThrough(s, t, id, k, step) && t.past.Keys == t.store.jobs.Keys
    requires s.past[k].token == Confirmation(id) && s.past[k].born < |s.events| && s.store.jobs[k].key == k
    requires Linked(s.store.jobs[k], s.past[k], None) && BarrierOk(s.store.jobs[k], s.past[k])
    requires forall h :: ConfiguredOk(s, k, h)
    requires forall h :: h in s.nodes ==> s.nodes[h].handled <= |s.events|
    requires s.store.jobs[k].order[step] in s.nodes
    ensures Fits(s, t, id, k)
  {
    forall h ensures ConfiguredOk(t, k, h) { assert ConfiguredOk(s, k, h); }
    assert s.store.jobs[k].order[..0] == [];
  }

  lemma ConfirmationFits(s: Cluster, t: Cluster, id: nat, k: JobKey)
    requires TokenKnown(s, t, id, k) && s.flight[id] == RestartConfirmation(k)
    requires s.store.jobs[k].status != Cancelled
    ensures Fits(s, t, id, k)
  {
    var job := s.store.jobs[k];
    var step := if job.cursor == None then 0 else job.cursor.value;
    HostAtCursorRuns(s, k, step);
    ConfirmationLetsThrough(s, t, id, k, step);
    LetThroughFits(s, t, id, k, step);
  }

  // --- A restart report. ---

  // What an accepted SUCCESS makes of the job and its past.
  ghost predicate Advanced(s: Cluster, t: Cluster, id: nat, k: JobKey, h: Host) {
    && k in s.past && k in s.store.jobs && k in t.past && k in t.store.jobs && s.store.jobs[k].cursor.Some?
    && t.nodes == s.nodes && t.flight == s.flight - {id}
    && SameJob(s.store.jobs[k], t.store.jobs[k]) && t.store.jobs[k].configuration == s.store.jobs[k].configuration
    && t.store.jobs[k].cursor == Some(s.store.jobs[k].cursor.value + 1)
    && |s.events| < |t.events| <= |s.events| + 2
    && t.events[|s.events|] == ServiceRestarted(t.store.jobs[k], h)
    && (|t.events| == |s.events| + 2 ==> t.events[|s.events| + 1] == AllServiceRestarted(t.store.jobs[k], h))
    && (var going := t.store.jobs[k].believe && t.store.jobs[k].status != Deployed;
        && t.past[k] == s.past[k].(finished := s.past[k].finished + [h],
                                   token := if going then Triggered(|s.events|) else Spent)
        && (going ==> t.store.jobs[k].status == Deploying && t.store.jobs[k].cursor.value < |t.store.jobs[k].order|))
  }

  // What the state machine makes of the SUCCESS of the host at the cursor.
  lemma SuccessIsAccepted(store: Store, k: JobKey, h: Host)
    requires k in store.jobs && store.jobs[k].key == k && store.jobs[k].status == Deploying
    requires UnderWay(store.jobs[k], Some(h))
    ensures var o := UpdateRestart(store, k, h, DeploymentSuccess);
            && o.error == None && k in o.store.jobs
            && var job := o.store.jobs[k];
               && job.cursor == Some(store.jobs[k].cursor.value + 1) && job.configuration == store.jobs[k].configuration
               && (job.status == Deploying || job.status == Deployed)
               && o.events == [ServiceRestarted(job, h)] +
                    (if job.status == Deployed then [AllServiceRestarted(job, h)] else [])
  {
  }

  lemma GoodVerdictAdvances(s: Cluster, t: Cluster, id: nat, k: JobKey, h: Host)
    requires id in s.flight && t == DoCommit(s, id)
    requires s.flight[id] == RestartServiceUpdate(k, h, DeploymentSuccess)
    requires k in s.past && k in s.store.jobs && Filed(s.store) && s.store.jobs[k].status == Deploying
    requires UnderWay(s.store.jobs[k], Some(h))
    requires k in t.store.jobs && SameJob(s.store.jobs[k], t.store.jobs[k]) && CursorOk(t.store.jobs[k])
    ensures Advanced(s, t, id, k, h)
  {
    SuccessIsAccepted(s.store, k, h);
  }

  lemma AdvancedFits(s: Cluster, t: Cluster, id: nat, k: JobKey, h: Host)
    requires Advanced(s, t, id, k, h) && t.past.Keys == t.store.jobs.Keys
    requires s.past[k].token == Judged(id) && s.past[k].born < |s.events|
    requires Linked(s.store.jobs[k], s.past[k], Some(h)) && BarrierOk(s.store.jobs[k], s.past[k])
    requires forall g :: ConfiguredOk(s, k, g)
    requires s.store.jobs[k].key == k
    requires h in s.nodes && s.nodes[h].handled <= |s.events|
    ensures Fits(s, t, id, k)
  {
    forall g ensures ConfiguredOk(t, k, g) { assert ConfiguredOk(s, k, g); }
    var order, c := s.store.jobs[k].order, s.store.jobs[k].cursor.value;
    assert order[..c + 1] == order[..c] + [order[c]];
  }

  lemma GoodVerdictFits(s: Cluster, t: Cluster, id: nat, k: JobKey, h: Host)
    requires TokenKnown(s, t, id, k) && s.flight[id] == RestartServiceUpdate(k, h, DeploymentSuccess)
    requires SameJob(s.store.jobs[k], t.store.jobs[k]) && CursorOk(t.store.jobs[k])
    requires s.store.jobs[k].status != Cancelled
    ensures Fits(s, t, id, k)
  {
    HostAtCursorRuns(s, k, s.store.jobs[k].cursor.value);
    GoodVerdictAdvances(s, t, id, k, h);
    AdvancedFits(s, t, id, k, h);
  }

  lemma CommitKeepsInv(s: Cluster, t: Cluster, id: nat)
    requires Inv(s) && id in s.flight && t == DoCommit(s, id)
    ensures Inv(t)
  {
    CommitKeepsKeys(s, t, id);
    CommitFits(s, t, id);
    FitsKeepsInv(s, t, id);
  }

  lemma JobIsKnown(s: Cluster, k: JobKey)
    requires Inv(s) && k in s.past
    ensures s.past[k].born < |s.events| && Backed(s, k) && LinkOk(s, k) && BarrierOk(s.store.jobs[k], s.past[k])
    ensures JobOk(s.store.jobs[k]) && s.store.jobs[k].key == k
    ensures forall h :: ConfiguredOk(s, k, h)
  {
    assert BornOk(s, k) && EntryOk(s.store, k) && LinkOk(s, k) && Backed(s, k);
    forall h ensures ConfiguredOk(s, k, h) { assert ConfiguredOk(s, k, h); }
  }

  lemma QueuesAreBehind(s: Cluster, h: Host)
    requires Shape(s) && h in s.nodes
    ensures QueueOk(s, h) && s.marks[s.nodes[h].applied] <= |s.events| && s.nodes[h].handled <= |s.events|
  {
    assert QueueOk(s, h);
  }

  lemma RestartReportFits(s: Cluster, t: Cluster, id: nat, k: JobKey, h: Host, status: DeploymentStatus)
    requires TokenKnown(s, t, id, k) && s.flight[id] == RestartServiceUpdate(k, h, status)
    requires SameJob(s.store.jobs[k], t.store.jobs[k]) && CursorOk(t.store.jobs[k])
    ensures Fits(s, t, id, k)
  {
    if !Verdict(status) {
      NewsSettles(s, t, id, k, h, status);
      SettledFits(s, t, id, k);
    } else if status != DeploymentSuccess || s.store.jobs[k].status == Cancelled {
      BadVerdictSettles(s, t, id, k, h, status);
      SettledFits(s, t, id, k);
    } else {
      GoodVerdictFits(s, t, id, k, h);
    }
  }

  lemma CommitFits(s: Cluster, t: Cluster, id: nat)
    requires Inv(s) && id in s.flight && t == DoCommit(s, id) && t.past.Keys == t.store.jobs.Keys
    ensures Fits(s, t, id, Subject(s.store, s.flight[id]))
  {
    var c := s.flight[id];
    forall h | h in s.nodes ensures s.nodes[h].handled <= |s.events| { QueuesAreBehind(s, h); }
    CommitKeepsOtherJobs(s, t, id);
    match c {
      case SubmitJob(_) =>
        SubmitFits(s, t, id);
      case CancelJob(k) =>
        if k in s.past {
          JobIsKnown(s, k);
          CancelSettles(s, t, id, k);
          SettledFits(s, t, id, k);
        } else {
          NobodysCommandFits(s, t, id, k);
        }
      case ConfigurationUpdate(k, h, status) =>
        assert ReportOk(s, id) && TaskOk(s, h, k);
        JobIsKnown(s, k);
        QueuesAreBehind(s, h);
        ReportFits(s, t, id, k, h, status);
      case RestartConfirmation(k) =>
        assert FlightToken(s, id);
        JobIsKnown(s, k);
        if s.store.jobs[k].status == Cancelled {
          RefusedConfirmationSettles(s, t, id, k);
          SettledFits(s, t, id, k);
        } else {
          ConfirmationFits(s, t, id, k);
        }
      case RestartServiceUpdate(k, h, status) =>
        assert FlightToken(s, id);
        if k in s.past {
          JobIsKnown(s, k);
          ApplyKeepsStoreOk(s.store, c);
          assert EntryOk(t.store, k);
          RestartReportFits(s, t, id, k, h, status);
        } else {
          NobodysCommandFits(s, t, id, k);
        }
    }
  }
}
