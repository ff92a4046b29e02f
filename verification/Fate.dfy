/**
 Whether a job can still end DEPLOYED: which steps make it hopeless, of all steps of all runs.
 */
module Fate {
  import opened Entities
  import opened RaftApp
  import opened RaftAppInvariants
  import opened Controller
  import opened Cluster
  import opened ClusterInvariant
  import opened ClusterSteps
  import opened ClusterCommit
  import opened ClusterTheorems

  // --- What can go wrong for job k. ---

  // A report of a host that is applied after its SUCCESS, while the job has not been configured.
  predicate Late(s: Cluster, a: Action, k: JobKey)
    requires Enabled(s, a)
  {
    a.Commits? && k in s.store.jobs &&
    var c, job := s.flight[a.id], s.store.jobs[k];
    && c.ConfigurationUpdate? && c.key == k && c.configuration != ConfigurationSuccess
    && (job.status == Queued || job.status == Cancelled)
    && c.host in job.configuration && job.configuration[c.host] == ConfigurationSuccess
  }

  // A command that nothing makes good for when it is lost.
  predicate Matters(c: Command, k: JobKey) {
    && !c.SubmitJob? && c.key == k
    && (|| c.RestartConfirmation?
        || (c.ConfigurationUpdate? && c.configuration == ConfigurationSuccess)
        || (c.RestartServiceUpdate? && Verdict(c.deployment)))
  }

  // A cancellation past the barrier, a loss that matters, or an Execute that fails.
  predicate Unlucky(s: Cluster, a: Action, k: JobKey)
    requires Enabled(s, a)
  {
    match a
    case Commits(id) =>
      s.flight[id] == CancelJob(k) && k in s.store.jobs
      && s.store.jobs[k].status != Queued && s.store.jobs[k].status != Cancelled
    case Loses(id) => Matters(s.flight[id], k)
    case Finishes(h, result) => s.nodes[h].consumer.key == k && !result.Succeeded?
    case Reports(_, j, result) => j == k && !result.Succeeded?
    case _ => false
  }

  predicate GoesWrong(s: Cluster, a: Action, k: JobKey)
    requires Enabled(s, a)
  {
    Unlucky(s, a, k) || Late(s, a, k)
  }

  // Whether any step of a run went wrong; `so` tells what happened before it.
  predicate HasGoneWrong(s: Cluster, actions: seq<Action>, k: JobKey, so: bool)
    decreases |actions|
  {
    if actions == [] || !Enabled(s, actions[0]) then so
    else HasGoneWrong(Do(s, actions[0]), actions[1..], k, so || GoesWrong(s, actions[0], k))
  }

  // --- Hopeless jobs: what these steps leave behind. ---

  predicate InFlight(s: Cluster, id: nat, c: Command) {
    id in s.flight && s.flight[id] == c
  }

  // Host h will never be SUCCESS again: it has been and is no longer, or it has had its say.
  predicate Blocked(s: Cluster, k: JobKey, h: Host)
    requires k in s.past && k in s.store.jobs
  {
    && h in s.store.jobs[k].configuration
    && if h in s.past[k].configured then
         s.store.jobs[k].configuration[h] != ConfigurationSuccess
       else
         && h in s.nodes && k in s.nodes[h].tasks && s.nodes[h].tasks[k].Reported?
         && !InFlight(s, s.nodes[h].tasks[k].id, ConfigurationUpdate(k, h, ConfigurationSuccess))
  }

  // The verdict on its way is not a SUCCESS.
  predicate Condemned(s: Cluster, t: Token) {
    && t.Judged? && t.id in s.flight
    && s.flight[t.id].RestartServiceUpdate? && s.flight[t.id].deployment != DeploymentSuccess
  }

  ghost predicate Hopeless(s: Cluster, k: JobKey) {
    k in s.past && k in s.store.jobs &&
    var job, p := s.store.jobs[k], s.past[k];
    if p.token == AtBarrier then
      exists h :: Blocked(s, k, h)
    else
      || job.status == Cancelled
      || (job.believe && p.token == Spent && job.status != Deployed)
      || Condemned(s, p.token)
  }

  // What else is true of every job.
  ghost predicate Sound(job: Job, p: Past) {
    && (p.token == AtBarrier ==> !AllConfigured(job.configuration))
    && (job.status == Queued ==> p.token == AtBarrier)
    && job.status != Configuring && job.status != Success && job.status != TimeOut
    && (!job.believe ==> (p.token == AtBarrier || p.token == Spent) && job.status != Deployed)
  }

  ghost predicate SoundAt(s: Cluster, k: JobKey) {
    k in s.past && k in s.store.jobs ==> Sound(s.store.jobs[k], s.past[k])
  }

  // What a step has to show about job k.
  ghost predicate Decides(s: Cluster, t: Cluster, k: JobKey, wrong: bool) {
    SoundAt(t, k) && (Hopeless(t, k) <==> Hopeless(s, k) || wrong)
  }

  // --- Steps that do not touch what the fate of job k hangs on. ---

  predicate Minor(t: Token) {
    t != AtBarrier && t != Spent && !t.Judged?
  }

  ghost predicate SameRecord(s: Cluster, t: Cluster, k: JobKey) {
    && (k in t.store.jobs <==> k in s.store.jobs)
    && (k in s.store.jobs ==>
          && t.store.jobs[k].status == s.store.jobs[k].status && t.store.jobs[k].believe == s.store.jobs[k].believe
          && t.store.jobs[k].configuration == s.store.jobs[k].configuration)
    && (k in t.past <==> k in s.past)
    && (k in s.past ==>
          && t.past[k].configured == s.past[k].configured
          && (t.past[k].token == s.past[k].token || (Minor(s.past[k].token) && Minor(t.past[k].token))))
  }

  predicate HasReported(s: Cluster, h: Host, k: JobKey, id: nat) {
    h in s.nodes && k in s.nodes[h].tasks && s.nodes[h].tasks[k] == Reported(id)
  }

  predicate Counts(s: Cluster, id: nat, k: JobKey, c: Command) {
    InFlight(s, id, c) && Matters(c, k)
  }

  ghost predicate Apart(s: Cluster, t: Cluster, k: JobKey) {
    && SameRecord(s, t, k)
    && (forall h, id: nat :: HasReported(t, h, k, id) <==> HasReported(s, h, k, id))
    && (forall id: nat, c :: id < s.next ==> (Counts(t, id, k, c) <==> Counts(s, id, k, c)))
  }

  // Ids in use have been given out.
  ghost predicate Given(s: Cluster, k: JobKey) {
    && (forall h, id: nat :: HasReported(s, h, k, id) ==> id < s.next)
    && (k in s.past ==> Backed(s, k))
    && (forall id :: id in s.flight ==> id < s.next)
  }

  lemma BlockedStays(s: Cluster, t: Cluster, k: JobKey, h: Host)
    requires k in s.past && k in s.store.jobs && Given(s, k) && Apart(s, t, k)
    ensures Blocked(t, k, h) <==> Blocked(s, k, h)
  {
    var c := ConfigurationUpdate(k, h, ConfigurationSuccess);
    if h in s.nodes && k in s.nodes[h].tasks && s.nodes[h].tasks[k].Reported? {
      var id := s.nodes[h].tasks[k].id;
      assert HasReported(s, h, k, id) && HasReported(t, h, k, id);
      assert Counts(t, id, k, c) <==> Counts(s, id, k, c);
    } else if h in t.nodes && k in t.nodes[h].tasks && t.nodes[h].tasks[k].Reported? {
      assert HasReported(t, h, k, t.nodes[h].tasks[k].id);
    }
  }

  lemma CondemnedStays(s: Cluster, t: Cluster, k: JobKey)
    requires k in s.past && Given(s, k) && Apart(s, t, k)
    ensures Condemned(t, t.past[k].token) <==> Condemned(s, s.past[k].token)
  {
    if s.past[k].token.Judged? {
      var id := s.past[k].token.id;
      assert Counts(s, id, k, s.flight[id]);
      assert Counts(t, id, k, s.flight[id]);
    }
  }

  lemma ApartKeepsFate(s: Cluster, t: Cluster, k: JobKey)
    requires SoundAt(s, k) && Given(s, k) && Apart(s, t, k)
    ensures Decides(s, t, k, false)
  {
    if k in s.past && k in s.store.jobs {
      forall h ensures Blocked(t, k, h) <==> Blocked(s, k, h) { BlockedStays(s, t, k, h); }
      CondemnedStays(s, t, k);
    }
  }

  lemma InvGiven(s: Cluster, k: JobKey)
    requires Inv(s)
    ensures Given(s, k)
  {
    forall h, id: nat | HasReported(s, h, k, id) ensures id < s.next { assert TaskOk(s, h, k); }
    if k in s.past { JobIsKnown(s, k); }
  }

  // --- Hosts. ---

  lemma SendIsApart(s: Cluster, t: Cluster, c: Command, k: JobKey)
    requires t == Send(s, c)
    ensures Apart(s, t, k)
  {
  }

  lemma ApplyIsApart(s: Cluster, t: Cluster, h: Host, k: JobKey)
    requires h in s.nodes && t == DoApply(s, h)
    ensures Apart(s, t, k)
  {
  }

  lemma SpawnIsApart(s: Cluster, t: Cluster, h: Host, k: JobKey)
    requires h in s.nodes && s.nodes[h].handled < |s.events| && t == DoHandle(s, h)
    requires Answer(s, h).Ignore? || (Answer(s, h).Configure? && Answer(s, h).key !in s.nodes[h].tasks)
    ensures Apart(s, t, k)
  {
  }

  lemma ConfirmIsApart(s: Cluster, t: Cluster, h: Host, j: JobKey, k: JobKey)
    requires h in s.nodes && j in s.past && s.past[j].token.Triggered? && t == DoConfirm(s, h, j)
    ensures Apart(s, t, k)
  {
  }

  lemma PrepareIsApart(s: Cluster, t: Cluster, h: Host, j: JobKey, k: JobKey)
    requires h in s.nodes && j in s.past && s.past[j].token.Permission? && t == DoPrepare(s, h, j)
    ensures Apart(s, t, k)
  {
  }

  lemma HandleIsApart(s: Cluster, t: Cluster, h: Host, k: JobKey)
    requires Inv(s) && CanHandle(s, h) && t == DoHandle(s, h)
    ensures Apart(s, t, k)
  {
    assert EventToken(s, s.nodes[h].handled);
    match Answer(s, h) {
      case Confirm(j) => ConfirmIsApart(s, t, h, j, k);
      case Restart(j) => PrepareIsApart(s, t, h, j, k);
      case _ => SpawnIsApart(s, t, h, k);
    }
  }

  lemma ReturnIsApart(s: Cluster, t: Cluster, h: Host, k: JobKey)
    requires h in s.nodes && ConsumerToken(s, h) && t == DoReturn(s, h)
    ensures Apart(s, t, k)
  {
  }

  lemma AnnounceIsApart(s: Cluster, t: Cluster, h: Host, j: JobKey, k: JobKey)
    requires h in s.nodes && j in s.past && j in s.nodes[h].tasks && s.nodes[h].tasks[j].Spawned?
    requires t == DoAnnounce(s, h, j)
    ensures Apart(s, t, k)
  {
  }

  lemma ProceedIsApart(s: Cluster, t: Cluster, h: Host, j: JobKey, k: JobKey)
    requires h in s.nodes && j in s.nodes[h].tasks && s.nodes[h].tasks[j].Announcing? && t == DoProceed(s, h, j)
    ensures Apart(s, t, k)
  {
  }

  // --- Results. ---

  lemma ReportOfOtherIsApart(s: Cluster, t: Cluster, h: Host, j: JobKey, result: Result, k: JobKey)
    requires h in s.nodes && j in s.past && j in s.nodes[h].tasks && j != k && t == DoReport(s, h, j, result)
    ensures Apart(s, t, k)
  {
  }

  // The last report of a task; it is the only way for its host to become SUCCESS.
  lemma ReportDecides(s: Cluster, t: Cluster, h: Host, k: JobKey, result: Result)
    requires SoundAt(s, k) && Given(s, k) && k in s.past && k in s.store.jobs
    requires h in s.nodes && k in s.nodes[h].tasks && s.nodes[h].tasks[k].Executing?
    requires h in s.store.jobs[k].configuration && ConfiguredOk(s, k, h) && BarrierOk(s.store.jobs[k], s.past[k])
    requires t == DoReport(s, h, k, result)
    ensures Decides(s, t, k, !result.Succeeded?)
  {
    assert s.past[k].token == AtBarrier;
    forall g | g != h ensures Blocked(t, k, g) <==> Blocked(s, k, g) { OtherStaysBlocked(s, t, h, k, result, g); }
    assert !Blocked(s, k, h);
    assert Blocked(t, k, h) <==> !result.Succeeded?;
  }

  lemma OtherStaysBlocked(s: Cluster, t: Cluster, h: Host, k: JobKey, result: Result, g: Host)
    requires Given(s, k) && k in s.past && k in s.store.jobs && h in s.nodes && g != h && t == DoReport(s, h, k, result)
    ensures Blocked(t, k, g) <==> Blocked(s, k, g)
  {
    if g in s.nodes && k in s.nodes[g].tasks && s.nodes[g].tasks[k].Reported? {
      assert HasReported(s, g, k, s.nodes[g].tasks[k].id);
    }
  }

  lemma FinishOfOtherIsApart(s: Cluster, t: Cluster, h: Host, result: Result, k: JobKey)
    requires h in s.nodes && s.nodes[h].consumer.InDeploy? && s.nodes[h].consumer.key in s.past
    requires s.nodes[h].consumer.key != k && t == DoFinish(s, h, result)
    ensures Apart(s, t, k)
  {
  }

  lemma FinishDecides(s: Cluster, t: Cluster, h: Host, k: JobKey, result: Result)
    requires SoundAt(s, k) && k in s.past && k in s.store.jobs
    requires h in s.nodes && s.nodes[h].consumer == InDeploy(k) && s.past[k].token == Runs(h)
    requires t == DoFinish(s, h, result)
    ensures Decides(s, t, k, !result.Succeeded?)
  {
  }

  // --- Losses. ---

  lemma MinorLossIsApart(s: Cluster, t: Cluster, id: nat, k: JobKey)
    requires id in s.flight && t == DoLose(s, id) && !Matters(s.flight[id], k) && FlightToken(s, id)
    requires k in s.past ==> Backed(s, k)
    ensures Apart(s, t, k)
  {
  }

  lemma ReportLossDecides(s: Cluster, t: Cluster, id: nat, k: JobKey, h: Host)
    requires SoundAt(s, k) && InFlight(s, id, ConfigurationUpdate(k, h, ConfigurationSuccess)) && t == DoLose(s, id)
    requires k in s.past && k in s.store.jobs && h in s.store.jobs[k].configuration
    requires ReportOk(s, id) && h !in s.past[k].configured && s.past[k].token == AtBarrier
    ensures Decides(s, t, k, true)
  {
    assert Blocked(t, k, h);
  }

  lemma TokenLossDecides(s: Cluster, t: Cluster, id: nat, k: JobKey)
    requires SoundAt(s, k) && id in s.flight && t == DoLose(s, id) && Matters(s.flight[id], k) && FlightToken(s, id)
    requires !s.flight[id].ConfigurationUpdate? && k in s.past && k in s.store.jobs && LinkOk(s, k)
    ensures Decides(s, t, k, true)
  {
  }

  lemma LossDecides(s: Cluster, t: Cluster, id: nat, k: JobKey)
    requires Inv(s) && SoundAt(s, k) && id in s.flight && t == DoLose(s, id)
    ensures Decides(s, t, k, GoesWrong(s, Loses(id), k))
  {
    InvGiven(s, k);
    assert FlightToken(s, id);
    if !Matters(s.flight[id], k) {
      MinorLossIsApart(s, t, id, k);
      ApartKeepsFate(s, t, k);
    } else if s.flight[id].ConfigurationUpdate? {
      var h := s.flight[id].host;
      assert ReportOk(s, id) && TaskOk(s, h, k);
      JobIsKnown(s, k);
      QueuesAreBehind(s, h);
      SuccessFindsBarrier(s, id, k, h);
      ReportLossDecides(s, t, id, k, h);
    } else {
      JobIsKnown(s, k);
      TokenLossDecides(s, t, id, k);
    }
  }

  // --- Commits. ---

  lemma CommitOfOtherIsApart(s: Cluster, t: Cluster, id: nat, k: JobKey)
    requires Shape(s) && id in s.flight && t == DoCommit(s, id) && k != Subject(s.store, s.flight[id])
    ensures Apart(s, t, k)
  {
    ApplyTouchesOneJob(s.store, s.flight[id], k);
  }

  lemma NewJobDecides(s: Cluster, t: Cluster, id: nat, k: JobKey)
    requires Inv(s) && id in s.flight && s.flight[id].SubmitJob? && t == DoCommit(s, id)
    requires k == NextKey(s.store, s.flight[id].request)
    ensures Decides(s, t, k, false)
  {
    NextKeyIsNew(s.store, s.flight[id].request);
    ApplyKeepsStoreOk(s.store, s.flight[id]);
    forall h | k in t.past && k in t.store.jobs ensures !Blocked(t, k, h) {
      assert h in s.nodes && k in s.nodes[h].tasks ==> TaskOk(s, h, k);
    }
    if k in t.store.jobs {
      assert EntryOk(t.store, k);
      assert t.store.jobs[k].order[0] in t.store.jobs[k].configuration;
    }
  }

  lemma CancelDecides(s: Cluster, t: Cluster, id: nat, k: JobKey)
    requires SoundAt(s, k) && Given(s, k) && InFlight(s, id, CancelJob(k)) && t == DoCommit(s, id)
    requires k in s.past && k in s.store.jobs && s.store.jobs[k].key == k && LinkOk(s, k)
    ensures Decides(s, t, k, Unlucky(s, Commits(id), k))
  {
    var cancelled := s.store.jobs[k].(status := Cancelled);
    assert t.store.jobs[k] == s.store.jobs[k] || t.store.jobs[k] == cancelled;
    assert t.past == s.past;
    forall h ensures Blocked(t, k, h) <==> Blocked(s, k, h) { }
  }

  lemma ConfirmationDecides(s: Cluster, t: Cluster, id: nat, k: JobKey)
    requires SoundAt(s, k) && InFlight(s, id, RestartConfirmation(k)) && t == DoCommit(s, id)
    requires k in s.past && k in s.store.jobs && s.store.jobs[k].key == k && LinkOk(s, k) && FlightToken(s, id)
    ensures Decides(s, t, k, false)
  {
  }

  lemma NewsIsApart(s: Cluster, t: Cluster, id: nat, k: JobKey)
    requires id in s.flight && s.flight[id].RestartServiceUpdate? && s.flight[id].key == k && t == DoCommit(s, id)
    requires !Verdict(s.flight[id].deployment) && (k in s.store.jobs ==> s.store.jobs[k].key == k)
    ensures Apart(s, t, k)
  {
  }

  // A verdict that fails, or comes too late, ends what was hopeless already.
  lemma BadVerdictDecides(s: Cluster, t: Cluster, id: nat, k: JobKey, h: Host, status: DeploymentStatus)
    requires SoundAt(s, k) && InFlight(s, id, RestartServiceUpdate(k, h, status)) && t == DoCommit(s, id)
    requires k in s.past && k in s.store.jobs && s.store.jobs[k].key == k && Verdict(status)
    requires s.past[k].token == Judged(id) && UnderWay(s.store.jobs[k], Some(h))
    requires status != DeploymentSuccess || s.store.jobs[k].status == Cancelled
    ensures Decides(s, t, k, false)
  {
    assert t.past[k].token == Spent;
  }

  lemma GoodVerdictDecides(s: Cluster, t: Cluster, id: nat, k: JobKey, h: Host)
    requires SoundAt(s, k) && InFlight(s, id, RestartServiceUpdate(k, h, DeploymentSuccess)) && t == DoCommit(s, id)
    requires k in s.past && k in s.store.jobs && s.store.jobs[k].key == k
    requires s.past[k].token == Judged(id) && UnderWay(s.store.jobs[k], Some(h))
    requires s.store.jobs[k].status == Deploying
    ensures Decides(s, t, k, false)
  {
    SuccessIsAccepted(s.store, k, h);
  }

  // A SUCCESS opens the barrier or leaves it as hopeful as it was.
  lemma SuccessDecides(s: Cluster, t: Cluster, id: nat, k: JobKey, h: Host, last: bool)
    requires SoundAt(s, k) && InFlight(s, id, ConfigurationUpdate(k, h, ConfigurationSuccess)) && ReportOk(s, id)
    requires Noted(s, t, id, k, h, ConfigurationSuccess, last) && BarrierOk(s.store.jobs[k], s.past[k])
    requires h !in s.past[k].configured && s.past[k].token == AtBarrier
    ensures Decides(s, t, k, false)
  {
    assert !Blocked(s, k, h) && !Blocked(t, k, h);
    if last {
      forall g ensures !Blocked(s, k, g) {
        if g != h && g in t.store.jobs[k].configuration {
          assert t.store.jobs[k].configuration[g] == ConfigurationSuccess;
        }
      }
    } else {
      forall g ensures Blocked(t, k, g) <==> Blocked(s, k, g) { }
    }
  }

  // Any other report is harmless unless its host has been SUCCESS.
  lemma OtherReportDecides(s: Cluster, t: Cluster, id: nat, k: JobKey, h: Host, status: ConfigurationStatus)
    requires SoundAt(s, k) && InFlight(s, id, ConfigurationUpdate(k, h, status)) && status != ConfigurationSuccess
    requires Noted(s, t, id, k, h, status, false) && BarrierOk(s.store.jobs[k], s.past[k]) && LinkOk(s, k)
    requires Given(s, k)
    ensures Decides(s, t, k, Late(s, Commits(id), k))
  {
    if s.past[k].token == AtBarrier {
      forall g | g != h ensures Blocked(t, k, g) <==> Blocked(s, k, g) { }
      if h in s.past[k].configured {
        assert Blocked(t, k, h);
        assert Late(s, Commits(id), k) || Blocked(s, k, h);
      } else {
        assert Blocked(t, k, h) <==> Blocked(s, k, h);
      }
    }
  }

  lemma ReportCommitDecides(s: Cluster, t: Cluster, id: nat, k: JobKey)
    requires Inv(s) && SoundAt(s, k) && id in s.flight && s.flight[id].ConfigurationUpdate? && s.flight[id].key == k
    requires t == DoCommit(s, id)
    ensures Decides(s, t, k, Late(s, Commits(id), k))
  {
    var h, status := s.flight[id].host, s.flight[id].configuration;
    assert ReportOk(s, id) && TaskOk(s, h, k);
    JobIsKnown(s, k);
    QueuesAreBehind(s, h);
    var before := s.store.jobs[k].configuration;
    AllConfiguredAfter(before, h, status);
    ReportIsNoted(s, t, id, k, h, status);
    if status == ConfigurationSuccess {
      SuccessFindsBarrier(s, id, k, h);
      SuccessDecides(s, t, id, k, h, AllConfigured(before[h := status]));
    } else {
      InvGiven(s, k);
      OtherReportDecides(s, t, id, k, h, status);
    }
  }

  lemma RestartReportDecides(s: Cluster, t: Cluster, id: nat, k: JobKey)
    requires Inv(s) && SoundAt(s, k) && id in s.flight && s.flight[id].RestartServiceUpdate? && s.flight[id].key == k
    requires t == DoCommit(s, id)
    ensures Decides(s, t, k, false)
  {
    assert FlightToken(s, id);
    if Verdict(s.flight[id].deployment) {
      JobIsKnown(s, k);
      var h, status := s.flight[id].host, s.flight[id].deployment;
      if status == DeploymentSuccess && s.store.jobs[k].status == Deploying {
        GoodVerdictDecides(s, t, id, k, h);
      } else {
        BadVerdictDecides(s, t, id, k, h, status);
      }
    } else {
      InvGiven(s, k);
      NewsIsApart(s, t, id, k);
      ApartKeepsFate(s, t, k);
    }
  }

  lemma CancelCommitDecides(s: Cluster, t: Cluster, id: nat, k: JobKey)
    requires Inv(s) && SoundAt(s, k) && InFlight(s, id, CancelJob(k)) && t == DoCommit(s, id)
    ensures Decides(s, t, k, Unlucky(s, Commits(id), k))
  {
    InvGiven(s, k);
    if k in s.past {
      JobIsKnown(s, k);
      CancelDecides(s, t, id, k);
    }
  }

  lemma CommitDecides(s: Cluster, t: Cluster, id: nat, k: JobKey)
    requires Inv(s) && SoundAt(s, k) && id in s.flight && t == DoCommit(s, id)
    ensures Decides(s, t, k, GoesWrong(s, Commits(id), k))
  {
    if k != Subject(s.store, s.flight[id]) {
      InvGiven(s, k);
      CommitOfOtherIsApart(s, t, id, k);
      ApartKeepsFate(s, t, k);
    } else {
      match s.flight[id] {
        case SubmitJob(_) => NewJobDecides(s, t, id, k);
        case CancelJob(_) => CancelCommitDecides(s, t, id, k);
        case ConfigurationUpdate(_, _, _) => ReportCommitDecides(s, t, id, k);
        case RestartConfirmation(_) =>
          assert FlightToken(s, id);
          JobIsKnown(s, k);
          ConfirmationDecides(s, t, id, k);
        case RestartServiceUpdate(_, _, _) => RestartReportDecides(s, t, id, k);
      }
    }
  }

  // --- All steps. ---

  lemma ReportStepDecides(s: Cluster, t: Cluster, h: Host, j: JobKey, result: Result, k: JobKey)
    requires Inv(s) && SoundAt(s, k) && Enabled(s, Reports(h, j, result)) && t == DoReport(s, h, j, result)
    ensures Decides(s, t, k, GoesWrong(s, Reports(h, j, result), k))
  {
    InvGiven(s, k);
    assert TaskOk(s, h, j);
    if j != k {
      ReportOfOtherIsApart(s, t, h, j, result, k);
      ApartKeepsFate(s, t, k);
    } else {
      JobIsKnown(s, k);
      ReportDecides(s, t, h, k, result);
    }
  }

  lemma FinishStepDecides(s: Cluster, t: Cluster, h: Host, result: Result, k: JobKey)
    requires Inv(s) && SoundAt(s, k) && Enabled(s, Finishes(h, result)) && t == DoFinish(s, h, result)
    ensures Decides(s, t, k, GoesWrong(s, Finishes(h, result), k))
  {
    assert ConsumerToken(s, h);
    if s.nodes[h].consumer.key != k {
      InvGiven(s, k);
      FinishOfOtherIsApart(s, t, h, result, k);
      ApartKeepsFate(s, t, k);
    } else {
      FinishDecides(s, t, h, k, result);
    }
  }

  // The other steps of a host, and those of the users.
  predicate Passes(a: Action) {
    !a.Commits? && !a.Loses? && !a.Finishes? && !a.Reports?
  }

  lemma PassingIsApart(s: Cluster, t: Cluster, a: Action, k: JobKey)
    requires Inv(s) && Enabled(s, a) && Passes(a) && t == Do(s, a)
    ensures Apart(s, t, k)
  {
    match a {
      case Submits(r) => SendIsApart(s, t, SubmitJob(r), k);
      case Cancels(j) => SendIsApart(s, t, CancelJob(j), k);
      case Applies(h) => ApplyIsApart(s, t, h, k);
      case Handles(h) => HandleIsApart(s, t, h, k);
      case Returns(h) => assert ConsumerToken(s, h); ReturnIsApart(s, t, h, k);
      case Announces(h, j) => assert TaskOk(s, h, j); AnnounceIsApart(s, t, h, j, k);
      case Proceeds(h, j) => ProceedIsApart(s, t, h, j, k);
    }
  }

  lemma PassingDecides(s: Cluster, t: Cluster, a: Action, k: JobKey)
    requires Inv(s) && SoundAt(s, k) && Enabled(s, a) && Passes(a) && t == Do(s, a)
    ensures Decides(s, t, k, GoesWrong(s, a, k))
  {
    InvGiven(s, k);
    PassingIsApart(s, t, a, k);
    ApartKeepsFate(s, t, k);
  }

  // A job is hopeless after a step exactly if it was before or the step goes wrong for it.
  lemma StepDecides(s: Cluster, t: Cluster, a: Action, k: JobKey)
    requires Inv(s) && SoundAt(s, k) && Enabled(s, a) && t == Do(s, a)
    ensures Decides(s, t, k, GoesWrong(s, a, k))
  {
    match a {
      case Commits(id) => CommitDecides(s, t, id, k);
      case Loses(id) => LossDecides(s, t, id, k);
      case Reports(h, j, result) => ReportStepDecides(s, t, h, j, result, k);
      case Finishes(h, result) => FinishStepDecides(s, t, h, result, k);
      case _ => PassingDecides(s, t, a, k);
    }
  }

  // So a job is hopeless exactly if some step of the run has gone wrong for it.
  lemma {:induction false} RunDecides(s: Cluster, actions: seq<Action>, t: Cluster, k: JobKey)
    requires Inv(s) && SoundAt(s, k) && Run(s, actions, t)
    ensures Inv(t) && SoundAt(t, k)
    ensures Hopeless(t, k) <==> HasGoneWrong(s, actions, k, Hopeless(s, k))
    decreases |actions|
  {
    if actions != [] {
      var next := Do(s, actions[0]);
      StepKeepsInv(s, actions[0]);
      StepDecides(s, next, actions[0], k);
      RunDecides(next, actions[1..], t, k);
    }
  }

  lemma {:induction false} HopelessMeansGoneWrong(s0: Cluster, actions: seq<Action>, s: Cluster, k: JobKey)
    requires Initial(s0) && Run(s0, actions, s)
    ensures Hopeless(s, k) <==> HasGoneWrong(s0, actions, k, false)
  {
    InitialInv(s0);
    RunDecides(s0, actions, s, k);
  }
}
