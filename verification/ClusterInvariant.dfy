/**
 The invariant of the whole system.  Its heart is the token: everything that can make a job move on
 (an unhandled event at the host it speaks to, a confirmation in flight, a host on its way into or
 inside Deploy, a verdict in flight) is the one token of that job.
 */
module ClusterInvariant {
  import opened Entities
  import opened RaftAppInvariants
  import opened Controller
  import opened Cluster

  // The log, the queues and the ids.
  ghost predicate Shape(s: Cluster) {
    && StoreOk(s.store)
    && s.past.Keys == s.store.jobs.Keys
    && |s.marks| == |s.log| + 1
    && s.marks[|s.log|] == |s.events|
    && (forall i, j :: 0 <= i <= j < |s.marks| ==> s.marks[i] <= s.marks[j])
    && (forall h {:trigger QueueOk(s, h)} :: h in s.nodes ==> QueueOk(s, h))
    && (forall id :: id in s.flight ==> id < s.next)
  }

  ghost predicate QueueOk(s: Cluster, h: Host)
    requires h in s.nodes
  {
    s.nodes[h].applied < |s.marks| && s.nodes[h].handled <= s.marks[s.nodes[h].applied]
  }

  // Every event carries a true picture of its job, and the first one announces its creation.
  ghost predicate SnapshotOk(s: Cluster, e: nat)
    requires e < |s.events|
  {
    !s.events[e].JobFailed? ==>
      var job := s.events[e].job;
      && job.key in s.store.jobs && job.key in s.past
      && SameJob(job, s.store.jobs[job.key])
      && s.past[job.key].born <= e
      && (s.events[e].JobCreated? <==> s.past[job.key].born == e)
  }

  ghost predicate BornOk(s: Cluster, k: JobKey)
    requires k in s.past
  {
    var e := s.past[k].born;
    e < |s.events| && s.events[e].JobCreated? && s.events[e].job.key == k
  }

  ghost predicate Snapshots(s: Cluster) {
    && (forall e {:trigger SnapshotOk(s, e)} :: 0 <= e < |s.events| ==> SnapshotOk(s, e))
    && (forall k {:trigger BornOk(s, k)} :: k in s.past ==> BornOk(s, k))
  }

  // A host that has handled the creation of a job that includes it has a task for it.
  ghost predicate JoinedOk(s: Cluster, h: Host, k: JobKey)
    requires h in s.nodes && k in s.past && k in s.store.jobs
  {
    s.past[k].born < s.nodes[h].handled && h in s.store.jobs[k].configuration ==> k in s.nodes[h].tasks
  }

  ghost predicate TaskOk(s: Cluster, h: Host, k: JobKey)
    requires h in s.nodes && k in s.nodes[h].tasks
  {
    var t := s.nodes[h].tasks[k];
    && k in s.store.jobs && k in s.past
    && h in s.store.jobs[k].configuration
    && (t.Announcing? || t.Reported? ==> t.id < s.next)
  }

  ghost predicate Pools(s: Cluster)
    requires s.past.Keys == s.store.jobs.Keys
  {
    && (forall h, k {:trigger JoinedOk(s, h, k)} :: h in s.nodes && k in s.past ==> JoinedOk(s, h, k))
    && (forall h, k {:trigger TaskOk(s, h, k)} :: h in s.nodes && k in s.nodes[h].tasks ==> TaskOk(s, h, k))
  }

  // Configuration reports in flight come from a task; a SUCCESS is the last word of a task whose
  // Execute returned success.
  ghost predicate ReportOk(s: Cluster, id: nat)
    requires id in s.flight
  {
    var c := s.flight[id];
    c.ConfigurationUpdate? ==>
      && c.host in s.nodes && c.key in s.nodes[c.host].tasks && c.key in s.past
      && (c.configuration == ConfigurationSuccess ==>
            s.nodes[c.host].tasks[c.key] == Reported(id) && c.host in s.past[c.key].executed)
  }

  ghost predicate ConfiguredOk(s: Cluster, k: JobKey, h: Host)
    requires k in s.past
  {
    h in s.past[k].configured ==>
      && h in s.nodes && k in s.nodes[h].tasks
      && s.nodes[h].tasks[k].Reported? && s.nodes[h].tasks[k].id !in s.flight
      && h in s.past[k].executed
  }

  ghost predicate BarrierOk(job: Job, p: Past) {
    && (forall h :: h in job.configuration && job.configuration[h] == ConfigurationSuccess ==> h in p.configured)
    && p.configured <= job.configuration.Keys
    && (p.token != AtBarrier ==> job.configuration.Keys <= p.configured)
  }

  ghost predicate Barriers(s: Cluster)
    requires s.past.Keys == s.store.jobs.Keys
  {
    && (forall id {:trigger ReportOk(s, id)} :: id in s.flight ==> ReportOk(s, id))
    && (forall k, h {:trigger ConfiguredOk(s, k, h)} :: k in s.past ==> ConfiguredOk(s, k, h))
    && (forall k {:trigger BarrierOk(s.store.jobs[k], s.past[k])} :: k in s.past ==>
         BarrierOk(s.store.jobs[k], s.past[k]))
  }

  // An event that makes its trigger host confirm.
  predicate IsTrigger(e: Event) {
    || (e.AllHostConfigured? && e.job.believe)
    || (e.ServiceRestarted? && e.job.believe && e.job.status != Deployed)
  }

  predicate Unhandled(s: Cluster, h: Host, e: nat) {
    h in s.nodes && s.nodes[h].handled <= e
  }

  predicate HasToken(s: Cluster, k: JobKey, t: Token) {
    k in s.past && s.past[k].token == t
  }

  ghost predicate EventToken(s: Cluster, e: nat)
    requires e < |s.events|
  {
    && (IsTrigger(s.events[e]) && Unhandled(s, s.events[e].trigger, e) ==>
         HasToken(s, s.events[e].job.key, Triggered(e)))
    && (s.events[e].RestartConfirmed? && Unhandled(s, s.events[e].target, e) ==>
         HasToken(s, s.events[e].job.key, Permission(e)))
  }

  ghost predicate FlightToken(s: Cluster, id: nat)
    requires id in s.flight
  {
    var c := s.flight[id];
    && (c.RestartConfirmation? ==> HasToken(s, c.key, Confirmation(id)))
    && (c.RestartServiceUpdate? && Verdict(c.deployment) ==> HasToken(s, c.key, Judged(id)))
  }

  ghost predicate ConsumerToken(s: Cluster, h: Host)
    requires h in s.nodes
  {
    && (s.nodes[h].consumer.Preparing? ==> HasToken(s, s.nodes[h].consumer.key, Prepares(h)))
    && (s.nodes[h].consumer.InDeploy? ==> HasToken(s, s.nodes[h].consumer.key, Runs(h)))
  }

  // And the token is never without the thing it stands for.
  ghost predicate Backed(s: Cluster, k: JobKey)
    requires k in s.past
  {
    match s.past[k].token
    case AtBarrier => true
    case Triggered(e) => e < |s.events| && IsTrigger(s.events[e]) && s.events[e].job.key == k &&
      Unhandled(s, s.events[e].trigger, e)
    case Confirmation(id) => id in s.flight && s.flight[id] == RestartConfirmation(k)
    case Permission(e) => e < |s.events| && s.events[e].RestartConfirmed? && s.events[e].job.key == k &&
      Unhandled(s, s.events[e].target, e)
    case Prepares(h) => h in s.nodes && s.nodes[h].consumer.Preparing? && s.nodes[h].consumer.key == k
    case Runs(h) => h in s.nodes && s.nodes[h].consumer == InDeploy(k)
    case Judged(id) => id in s.flight && s.flight[id].RestartServiceUpdate? && s.flight[id].key == k &&
      Verdict(s.flight[id].deployment)
    case Spent => true
  }

  ghost predicate Tokens(s: Cluster) {
    && (forall e {:trigger EventToken(s, e)} :: 0 <= e < |s.events| ==> EventToken(s, e))
    && (forall id {:trigger FlightToken(s, id)} :: id in s.flight ==> FlightToken(s, id))
    && (forall h {:trigger ConsumerToken(s, h)} :: h in s.nodes ==> ConsumerToken(s, h))
    && (forall k {:trigger Backed(s, k)} :: k in s.past ==> Backed(s, k))
  }

  // The host that the token speaks of, once a confirmation has been accepted.
  function Speaker(s: Cluster, t: Token): Option<Host> {
    match t
    case Permission(e) => if e < |s.events| && s.events[e].RestartConfirmed? then Some(s.events[e].target) else None
    case Prepares(h) => Some(h)
    case Runs(h) => Some(h)
    case Judged(id) => if id in s.flight && s.flight[id].RestartServiceUpdate? then Some(s.flight[id].host) else None
    case _ => None
  }

  ghost predicate Between(job: Job, p: Past) {
    && p.started == p.finished
    && (job.cursor.Some? ==> job.cursor.value < |job.order|)
    && (job.status == Cancelled || job.status == (if job.cursor == None then Configured else Deploying))
  }

  ghost predicate UnderWay(job: Job, speaker: Option<Host>) {
    && job.cursor.Some? && job.cursor.value < |job.order|
    && (job.status == Deploying || job.status == Cancelled)
    && speaker == Some(job.order[job.cursor.value])
  }

  ghost predicate OneAhead(job: Job, p: Past) {
    && job.cursor.Some? && job.cursor.value < |job.order|
    && p.started == job.order[..job.cursor.value + 1]
  }

  // How far the restarts have come, told by the token.
  ghost predicate Linked(job: Job, p: Past, speaker: Option<Host>) {
    && (job.cursor == None ==> p.started == p.finished == [])
    && (job.cursor.Some? ==>
          && job.cursor.value <= |job.order|
          && p.finished == job.order[..job.cursor.value])
    && (match p.token
        case AtBarrier => job.cursor == None && (job.status == Queued || job.status == Cancelled)
        case Triggered(_) => Between(job, p)
        case Confirmation(_) => Between(job, p)
        case Permission(_) => UnderWay(job, speaker) && p.started == p.finished
        case Prepares(_) => UnderWay(job, speaker) && p.started == p.finished
        case Runs(_) => UnderWay(job, speaker) && OneAhead(job, p)
        case Judged(_) => UnderWay(job, speaker) && OneAhead(job, p)
        case Spent => p.started == p.finished || (OneAhead(job, p) && job.status != Deployed))
  }

  ghost predicate LinkOk(s: Cluster, k: JobKey)
    requires k in s.past && k in s.store.jobs
  {
    Linked(s.store.jobs[k], s.past[k], Speaker(s, s.past[k].token))
  }

  ghost predicate Links(s: Cluster)
    requires s.past.Keys == s.store.jobs.Keys
  {
    forall k {:trigger LinkOk(s, k)} :: k in s.past ==> LinkOk(s, k)
  }

  ghost predicate Inv(s: Cluster) {
    Shape(s) && Snapshots(s) && Pools(s) && Barriers(s) && Tokens(s) && Links(s)
  }

  lemma InitialInv(s: Cluster)
    requires Initial(s)
    ensures Inv(s)
  {
  }
}
