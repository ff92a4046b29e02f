/**
 What holds in every state that any run can reach: whatever the users submit and cancel, however
 commands are lost, delayed and reordered, and whether or not the work on the hosts succeeds.
 */
module ClusterTheorems {
  import opened Entities
  import opened RaftApp
  import opened RaftAppInvariants
  import opened Controller
  import opened Cluster
  import opened ClusterInvariant
  import opened ClusterSteps
  import opened ClusterCommit

  lemma StepKeepsInv(s: Cluster, a: Action)
    requires Inv(s) && Enabled(s, a)
    ensures Inv(Do(s, a))
  {
    var t := Do(s, a);
    match a {
      case Submits(request) => SendsKeepsInv(s, SubmitJob(request));
      case Cancels(key) => SendsKeepsInv(s, CancelJob(key));
      case Commits(id) => CommitKeepsInv(s, t, id);
      case Loses(id) => LosesKeepsInv(s, t, id);
      case Applies(h) => AppliesKeepsInv(s, t, h);
      case Handles(h) => HandlesKeepsInv(s, t, h);
      case Returns(h) =>
        if s.nodes[h].consumer.Preparing? { PreparedKeepsInv(s, t, h); } else { IdleKeepsInv(s, t, h); }
      case Finishes(h, result) => FinishesKeepsInv(s, t, h, result);
      case Announces(h, k) => AnnouncesKeepsInv(s, t, h, k);
      case Proceeds(h, k) => ProceedsKeepsInv(s, t, h, k);
      case Reports(h, k, result) => ReportsKeepsInv(s, t, h, k, result);
    }
  }

  lemma {:induction false} RunKeepsInv(s: Cluster, actions: seq<Action>, t: Cluster)
    requires Inv(s) && Run(s, actions, t)
    ensures Inv(t)
    decreases |actions|
  {
    if actions != [] {
      StepKeepsInv(s, actions[0]);
      RunKeepsInv(Do(s, actions[0]), actions[1..], t);
    }
  }

  ghost predicate Reachable(s: Cluster) {
    exists s0: Cluster, actions: seq<Action> :: Initial(s0) && Run(s0, actions, s)
  }

  lemma ReachableInv(s: Cluster)
    requires Reachable(s)
    ensures Inv(s)
  {
    var s0: Cluster, actions: seq<Action> :| Initial(s0) && Run(s0, actions, s);
    InitialInv(s0);
    RunKeepsInv(s0, actions, s);
  }

  // A host on its way into Deploy, or inside.
  predicate Restarting(s: Cluster, h: Host, k: JobKey) {
    && h in s.nodes
    && (s.nodes[h].consumer == InDeploy(k) || (s.nodes[h].consumer.Preparing? && s.nodes[h].consumer.key == k))
  }

  // Rolling restart: at most one host per job restarts at a time, and while one does, nothing is
  // in flight or queued that could make another one start.
  lemma MutualExclusion(s: Cluster, k: JobKey, a: Host)
    requires Reachable(s) && Restarting(s, a, k)
    ensures forall b :: Restarting(s, b, k) ==> b == a
    ensures forall id :: id in s.flight && s.flight[id].RestartConfirmation? ==> s.flight[id].key != k
    ensures forall id :: id in s.flight && s.flight[id].RestartServiceUpdate? && Verdict(s.flight[id].deployment) ==>
            s.flight[id].key != k
    ensures forall e: nat :: e < |s.events| && s.events[e].RestartConfirmed? && s.events[e].job.key == k ==>
              !Unhandled(s, s.events[e].target, e)
  {
    ReachableInv(s);
    assert ConsumerToken(s, a);
    forall b | Restarting(s, b, k) ensures b == a { assert ConsumerToken(s, b); }
    forall id | id in s.flight ensures
        !(s.flight[id].RestartConfirmation? && s.flight[id].key == k)
        && !(s.flight[id].RestartServiceUpdate? && Verdict(s.flight[id].deployment) && s.flight[id].key == k)
    {
      assert FlightToken(s, id);
    }
    forall e: nat | e < |s.events| && s.events[e].RestartConfirmed? && s.events[e].job.key == k
      ensures !Unhandled(s, s.events[e].target, e)
    {
      assert EventToken(s, e);
    }
  }

  // The host that may go on for job k: it has been told to restart, restarts, or has its verdict
  // on the way.
  predicate HasFloor(s: Cluster, k: JobKey, h: Host) {
    k in s.past && Speaker(s, s.past[k].token) == Some(h)
  }

  lemma WhoHasTheFloor(s: Cluster, k: JobKey, h: Host)
    requires Reachable(s)
    ensures Restarting(s, h, k) ==> HasFloor(s, k, h)
    ensures forall id, status :: id in s.flight && s.flight[id] == RestartServiceUpdate(k, h, status) ==>
              Verdict(status) ==> HasFloor(s, k, h)
  {
    ReachableInv(s);
    if Restarting(s, h, k) { assert ConsumerToken(s, h); }
    forall id, status | id in s.flight && s.flight[id] == RestartServiceUpdate(k, h, status) && Verdict(status)
      ensures HasFloor(s, k, h)
    {
      assert FlightToken(s, id);
    }
  }

  predicate OfService(k: JobKey, ns: string, service: string) {
    k.ns == ns && k.service == service
  }

  // A service restarts on one host at a time as long as no two jobs of it have a host with the floor.
  lemma ServiceExclusion(s: Cluster, ns: string, service: string)
    requires Reachable(s)
    requires forall a, b, j, k {:trigger HasFloor(s, j, a), HasFloor(s, k, b)} ::
               HasFloor(s, j, a) && HasFloor(s, k, b) && OfService(j, ns, service) && OfService(k, ns, service) ==>
                 j == k
    ensures forall a, b, j, k {:trigger Restarting(s, a, j), Restarting(s, b, k)} ::
              Restarting(s, a, j) && Restarting(s, b, k) && OfService(j, ns, service) && OfService(k, ns, service) ==>
                a == b && j == k
  {
    forall a, b, j, k | Restarting(s, a, j) && Restarting(s, b, k) && OfService(j, ns, service) &&
        OfService(k, ns, service)
      ensures a == b && j == k
    {
      WhoHasTheFloor(s, j, a);
      WhoHasTheFloor(s, k, b);
      MutualExclusion(s, j, a);
    }
  }

  // A job that has been confirmed and has hosts left to restart.
  predicate Open(s: Cluster, k: JobKey) {
    && k in s.store.jobs && (s.store.jobs[k].status == Deploying || s.store.jobs[k].status == Cancelled)
    && s.store.jobs[k].cursor.Some? && s.store.jobs[k].cursor.value < |s.store.jobs[k].order|
  }

  lemma FloorIsOfOpenJob(s: Cluster, k: JobKey, h: Host)
    requires Reachable(s) && HasFloor(s, k, h)
    ensures Open(s, k)
  {
    ReachableInv(s);
    assert LinkOk(s, k);
  }

  // The jobs as stored tell it too: no two of them are open.
  lemma OpenJobsExclude(s: Cluster, ns: string, service: string)
    requires Reachable(s)
    requires forall j, k {:trigger Open(s, j), Open(s, k)} ::
               Open(s, j) && Open(s, k) && OfService(j, ns, service) && OfService(k, ns, service) ==> j == k
    ensures forall a, b, j, k {:trigger Restarting(s, a, j), Restarting(s, b, k)} ::
              Restarting(s, a, j) && Restarting(s, b, k) && OfService(j, ns, service) && OfService(k, ns, service) ==>
                a == b && j == k
  {
    forall a, b, j, k | HasFloor(s, j, a) && HasFloor(s, k, b) && OfService(j, ns, service) && OfService(k, ns, service)
      ensures j == k
    {
      FloorIsOfOpenJob(s, j, a);
      FloorIsOfOpenJob(s, k, b);
    }
    ServiceExclusion(s, ns, service);
  }

  // The hosts that finished are exactly the order up to the cursor, each once per place; the
  // hosts that entered Deploy are those, and at most the next one.
  lemma InOrder(s: Cluster, k: JobKey)
    requires Reachable(s) && k in s.store.jobs
    ensures k in s.past
    ensures var job, p := s.store.jobs[k], s.past[k];
            var done := if job.cursor == None then 0 else job.cursor.value;
            && done <= |job.order|
            && p.finished == job.order[..done]
            && (p.started == p.finished || (done < |job.order| && p.started == job.order[..done + 1]))
  {
    ReachableInv(s);
    assert LinkOk(s, k);
    var order := s.store.jobs[k].order;
    assert order[..0] == [];
  }

  // A DEPLOYED job has restarted every place of its order, once and in order, exactly when no
  // host repeats.
  lemma DeployedRestartedEveryHost(s: Cluster, k: JobKey)
    requires Reachable(s) && k in s.store.jobs && s.store.jobs[k].status == Deployed
    ensures k in s.past && s.past[k].started == s.past[k].finished
    ensures s.past[k].finished == s.store.jobs[k].order <==> Distinct(s.store.jobs[k].order)
  {
    ReachableInv(s);
    assert LinkOk(s, k) && EntryOk(s.store, k);
    VarietyBound(s.store.jobs[k].order);
  }

  // The barrier: before any host enters Deploy, the configuration of every host of the job has
  // been executed with success.
  lemma ConfigurationBarrier(s: Cluster, k: JobKey, h: Host)
    requires Reachable(s) && k in s.store.jobs
    requires (k in s.past && s.past[k].started != []) || Restarting(s, h, k)
    ensures k in s.past && forall g :: g in s.store.jobs[k].order ==> g in s.past[k].executed
  {
    ReachableInv(s);
    if Restarting(s, h, k) { assert ConsumerToken(s, h); }
    assert LinkOk(s, k) && BarrierOk(s.store.jobs[k], s.past[k]) && EntryOk(s.store, k);
    forall g | g in s.store.jobs[k].order ensures g in s.past[k].executed {
      assert g in s.store.jobs[k].configuration;
      assert ConfiguredOk(s, k, g);
    }
  }

  // Whenever the consumer is about to take a restart event that targets its host, it knows the
  // job, and so it starts the restart.
  lemma NoDroppedRestart(s: Cluster, h: Host)
    requires Reachable(s) && h in s.nodes && s.nodes[h].handled < |s.events|
    requires s.events[s.nodes[h].handled].RestartConfirmed? && s.events[s.nodes[h].handled].target == h
    ensures Answer(s, h) == Restart(s.events[s.nodes[h].handled].job.key)
  {
    ReachableInv(s);
    TargetKnowsTheJob(s, h);
  }

  // A host acts on the event it is about to take exactly if the event speaks to it: it confirms
  // when it is the trigger, it restarts when it is the target, and nobody else does anything.
  lemma ActsIfAddressed(s: Cluster, h: Host)
    requires Reachable(s) && h in s.nodes && s.nodes[h].handled < |s.events|
    ensures Answer(s, h).Confirm? || Answer(s, h).Restart? <==> AboutHost(s, s.nodes[h].handled, h)
  {
    if s.events[s.nodes[h].handled].RestartConfirmed? && s.events[s.nodes[h].handled].target == h {
      NoDroppedRestart(s, h);
    }
  }

  // Hand-off: every report of the host that has the floor is accepted, unless the job has been
  // cancelled meanwhile; of any other host it is refused.
  lemma HandOffAccepted(s: Cluster, k: JobKey, h: Host, g: Host, status: DeploymentStatus)
    requires Reachable(s) && HasFloor(s, k, h)
    ensures k in s.store.jobs
    ensures Apply(s.store, RestartServiceUpdate(k, g, status)).error == None <==>
              g == h && s.store.jobs[k].status != Cancelled
  {
    ReachableInv(s);
    assert LinkOk(s, k) && Backed(s, k);
  }

  // A confirmation is accepted, unless the job has been cancelled meanwhile, and then it lets
  // exactly the next host of the order go on.
  lemma ConfirmationAccepted(s: Cluster, id: nat, k: JobKey)
    requires Reachable(s) && id in s.flight && s.flight[id] == RestartConfirmation(k)
    ensures k in s.store.jobs && k in s.past
    ensures var o := Apply(s.store, s.flight[id]);
            && (o.error == None <==> s.store.jobs[k].status != Cancelled)
            && (o.error == None ==>
                  && |o.events| == 1 && o.events[0].RestartConfirmed?
                  && |s.past[k].finished| < |s.store.jobs[k].order|
                  && o.events[0].target == s.store.jobs[k].order[|s.past[k].finished|]
                  && o.events[0].target in s.nodes)
  {
    ReachableInv(s);
    assert FlightToken(s, id);
    JobIsKnown(s, k);
    var job := s.store.jobs[k];
    if job.status != Cancelled {
      HostAtCursorRuns(s, k, if job.cursor == None then 0 else job.cursor.value);
    }
  }

  // --- New jobs. ---

  // The job whose record a step of a host touches.
  function Concerns(s: Cluster, a: Action): Option<JobKey>
    requires Enabled(s, a)
  {
    match a
    case Handles(h) => if Answer(s, h).Confirm? || Answer(s, h).Restart? then Some(Answer(s, h).key) else None
    case Returns(h) => if s.nodes[h].consumer.Preparing? then Some(s.nodes[h].consumer.key) else None
    case Finishes(h, _) => Some(s.nodes[h].consumer.key)
    case Announces(_, k) => Some(k)
    case Reports(_, k, _) => Some(k)
    case _ => None
  }

  lemma OnlyTheConcernedChanges(s: Cluster, t: Cluster, a: Action)
    requires Enabled(s, a) && !a.Commits? && t == Do(s, a)
    requires Concerns(s, a).Some? ==> Concerns(s, a).value in s.past
    ensures t.past.Keys == s.past.Keys
  {
  }

  // Without a commit no job begins: hosts speak only of jobs that exist.
  lemma HostsSpeakOfJobs(s: Cluster, a: Action)
    requires Inv(s) && Enabled(s, a) && Concerns(s, a).Some?
    ensures Concerns(s, a).value in s.past
  {
    match a {
      case Handles(h) => assert EventToken(s, s.nodes[h].handled);
      case Announces(h, k) => assert TaskOk(s, h, k);
      case Reports(h, k, _) => assert TaskOk(s, h, k);
      case Finishes(h, _) => assert ConsumerToken(s, h);
      case Returns(h) => assert ConsumerToken(s, h);
    }
  }

  lemma StepKeepsJobs(s: Cluster, t: Cluster, a: Action)
    requires Inv(s) && Enabled(s, a) && !a.Commits? && t == Do(s, a)
    ensures t.past.Keys == s.past.Keys
  {
    if Concerns(s, a).Some? { HostsSpeakOfJobs(s, a); }
    OnlyTheConcernedChanges(s, t, a);
  }

  lemma NewPastIsSubmitted(s: Cluster, t: Cluster, a: Action, k: JobKey)
    requires Inv(s) && Enabled(s, a) && t == Do(s, a) && k in t.past && k !in s.past
    ensures a.Commits? && s.flight[a.id].SubmitJob? && k == NextKey(s.store, s.flight[a.id].request)
  {
    if !a.Commits? { StepKeepsJobs(s, t, a); }
  }

  // --- Cancellation. ---

  predicate PastBarrier(s: Cluster, k: JobKey) {
    k in s.past && k in s.store.jobs && s.store.jobs[k].configuration.Keys <= s.past[k].configured
  }

  predicate Frozen(a: Job, b: Job) {
    a.status == b.status && a.cursor == b.cursor && a.order == b.order && a.deployment == b.deployment
  }

  // The report that revives a cancelled job.
  predicate Revives(job: Job, c: Command) {
    && c.ConfigurationUpdate? && c.key == job.key && c.host in job.configuration
    && AllConfigured(job.configuration[c.host := c.configuration])
  }

  lemma CancelledIsFrozen(store: Store, c: Command, k: JobKey)
    requires Filed(store) && k in store.jobs && store.jobs[k].status == Cancelled && !Revives(store.jobs[k], c)
    requires c.SubmitJob? ==> NextKey(store, c.request) != k
    ensures k in Apply(store, c).store.jobs && Frozen(store.jobs[k], Apply(store, c).store.jobs[k])
  {
    if k != Subject(store, c) { ApplyTouchesOneJob(store, c, k); }
  }

  lemma CommitKeepsConfigured(s: Cluster, t: Cluster, id: nat, k: JobKey)
    requires id in s.flight && t == DoCommit(s, id) && k in s.past
    requires s.flight[id].SubmitJob? ==> NextKey(s.store, s.flight[id].request) != k
    ensures k in t.past && s.past[k].configured <= t.past[k].configured
  {
  }

  lemma CommitKeepsCancelled(s: Cluster, t: Cluster, id: nat, k: JobKey)
    requires Inv(s) && id in s.flight && t == DoCommit(s, id)
    requires PastBarrier(s, k) && s.store.jobs[k].status == Cancelled
    ensures PastBarrier(t, k) && Frozen(s.store.jobs[k], t.store.jobs[k])
  {
    var c := s.flight[id];
    JobIsKnown(s, k);
    ApplyKeepsSameJob(s.store, c, k);
    if c.SubmitJob? {
      NextKeyIsNew(s.store, c.request);
    } else if c.ConfigurationUpdate? && c.key == k {
      assert ReportOk(s, id) && TaskOk(s, c.host, k) && ConfiguredOk(s, k, c.host);
      AllConfiguredAfter(s.store.jobs[k].configuration, c.host, c.configuration);
    }
    CancelledIsFrozen(s.store, c, k);
    CommitKeepsConfigured(s, t, id, k);
  }

  lemma StepKeepsNodes(s: Cluster, t: Cluster, a: Action)
    requires Enabled(s, a) && t == Do(s, a)
    ensures t.nodes.Keys == s.nodes.Keys
  {
  }

  // Only commits touch the log and the jobs, and the record of what has been configured.
  lemma OnlyCommitsDecide(s: Cluster, t: Cluster, a: Action)
    requires Enabled(s, a) && !a.Commits? && t == Do(s, a)
    ensures t.store == s.store && t.log == s.log && t.events == s.events && t.marks == s.marks
  {
  }

  lemma OnlyCommitsConfigure(s: Cluster, t: Cluster, a: Action, k: JobKey)
    requires Enabled(s, a) && !a.Commits? && t == Do(s, a) && k in s.past
    ensures k in t.past && t.past[k].configured == s.past[k].configured
  {
  }

  lemma StepKeepsCancelled(s: Cluster, t: Cluster, a: Action, k: JobKey)
    requires Inv(s) && Enabled(s, a) && t == Do(s, a)
    requires PastBarrier(s, k) && s.store.jobs[k].status == Cancelled
    ensures PastBarrier(t, k) && Frozen(s.store.jobs[k], t.store.jobs[k])
  {
    if a.Commits? {
      CommitKeepsCancelled(s, t, a.id, k);
    } else {
      OnlyCommitsDecide(s, t, a);
      OnlyCommitsConfigure(s, t, a, k);
    }
  }

  lemma {:induction false} RunKeepsCancelled(s: Cluster, actions: seq<Action>, t: Cluster, k: JobKey)
    requires Inv(s) && Run(s, actions, t)
    requires PastBarrier(s, k) && s.store.jobs[k].status == Cancelled
    ensures k in t.store.jobs && Frozen(s.store.jobs[k], t.store.jobs[k])
    decreases |actions|
  {
    if actions != [] {
      StepKeepsInv(s, actions[0]);
      StepKeepsCancelled(s, Do(s, actions[0]), actions[0], k);
      RunKeepsCancelled(Do(s, actions[0]), actions[1..], t, k);
    }
  }

  // Once every host's SUCCESS has been applied, a cancellation is final: for the rest of every
  // run the job stays CANCELLED, and its cursor and deployment statuses do not move.
  lemma {:induction false} CancelIsFinal(s: Cluster, actions: seq<Action>, t: Cluster, k: JobKey)
    requires Reachable(s) && Run(s, actions, t)
    requires PastBarrier(s, k) && s.store.jobs[k].status == Cancelled
    ensures k in t.store.jobs && Frozen(s.store.jobs[k], t.store.jobs[k])
  {
    ReachableInv(s);
    RunKeepsCancelled(s, actions, t, k);
  }
}
