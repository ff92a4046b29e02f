/**
 Every step but a commit keeps the invariant.  First what follows for the parts of the invariant
 that a step does not touch, then the steps one by one: those of users and replicas, those of the
 configuration tasks, which leave the tokens alone, and those of the consumer, which move the token
 of one job at one host.
 */
module ClusterSteps {
  import opened Entities
  import opened RaftAppInvariants
  import opened Controller
  import opened Cluster
  import opened ClusterInvariant

  // Steps that leave the log alone.
  ghost predicate SameLog(s: Cluster, t: Cluster) {
    && t.store == s.store && t.log == s.log && t.events == s.events && t.marks == s.marks
    && t.past.Keys == s.past.Keys
    && t.nodes.Keys == s.nodes.Keys
    && s.next <= t.next
    && (forall k :: k in s.past ==> t.past[k].born == s.past[k].born && t.past[k].configured == s.past[k].configured)
  }

  // Nothing in flight afterwards but what was before and possibly one new command.
  ghost predicate Flies(s: Cluster, t: Cluster) {
    forall id :: id in t.flight ==> id < t.next && (id >= s.next || (id in s.flight && t.flight[id] == s.flight[id]))
  }

  ghost predicate SameTasks(s: Cluster, t: Cluster) {
    s.nodes.Keys == t.nodes.Keys && forall h :: h in s.nodes ==> t.nodes[h].tasks == s.nodes[h].tasks
  }

  ghost predicate SameConsumers(s: Cluster, t: Cluster) {
    && s.nodes.Keys == t.nodes.Keys
    && forall h :: h in s.nodes ==>
         t.nodes[h].handled == s.nodes[h].handled && t.nodes[h].consumer == s.nodes[h].consumer
  }

  ghost predicate SameTokens(s: Cluster, t: Cluster) {
    && s.past.Keys == t.past.Keys
    && forall k :: k in s.past ==>
         && t.past[k].token == s.past[k].token
         && t.past[k].started == s.past[k].started
         && t.past[k].finished == s.past[k].finished
  }

  lemma KeepsShape(s: Cluster, t: Cluster)
    requires Shape(s) && SameLog(s, t) && Flies(s, t)
    requires forall h :: h in s.nodes ==> QueueOk(t, h)
    ensures Shape(t)
  {
  }

  lemma KeepsSnapshots(s: Cluster, t: Cluster)
    requires Snapshots(s) && SameLog(s, t)
    ensures Snapshots(t)
  {
    forall e: nat | e < |t.events| ensures SnapshotOk(t, e) { assert SnapshotOk(s, e); }
    forall k | k in t.past ensures BornOk(t, k) { assert BornOk(s, k); }
  }

  lemma KeepsPools(s: Cluster, t: Cluster)
    requires SameLog(s, t) && s.past.Keys == s.store.jobs.Keys && Pools(s)
    requires SameTasks(s, t)
    requires forall h :: h in s.nodes ==> t.nodes[h].handled == s.nodes[h].handled
    ensures Pools(t)
  {
    forall h, k | h in t.nodes && k in t.past ensures JoinedOk(t, h, k) { assert JoinedOk(s, h, k); }
    forall h, k | h in t.nodes && k in t.nodes[h].tasks ensures TaskOk(t, h, k) { assert TaskOk(s, h, k); }
  }

  lemma KeepsBarriers(s: Cluster, t: Cluster)
    requires SameLog(s, t) && s.past.Keys == s.store.jobs.Keys && Pools(s) && Barriers(s)
    requires SameTasks(s, t) && Flies(s, t)
    requires forall id :: id in t.flight && id >= s.next ==> !t.flight[id].ConfigurationUpdate?
    requires forall k :: k in s.past ==> t.past[k].executed == s.past[k].executed
    requires forall k :: k in s.past && t.past[k].token != AtBarrier ==> s.past[k].token != AtBarrier
    ensures Barriers(t)
  {
    forall id | id in t.flight ensures ReportOk(t, id) {
      if id < s.next { assert ReportOk(s, id); }
    }
    forall k, h | k in t.past ensures ConfiguredOk(t, k, h) {
      assert ConfiguredOk(s, k, h);
      if h in s.past[k].configured { assert TaskOk(s, h, k); }
    }
    forall k | k in t.past ensures BarrierOk(t.store.jobs[k], t.past[k]) {
      assert BarrierOk(s.store.jobs[k], s.past[k]);
    }
  }

  lemma KeepsTokens(s: Cluster, t: Cluster)
    requires SameLog(s, t) && Tokens(s)
    requires SameConsumers(s, t) && SameTokens(s, t) && Flies(s, t)
    requires forall id :: id in s.flight ==> id in t.flight && t.flight[id] == s.flight[id]
    requires forall id :: id in t.flight && id >= s.next ==>
             !t.flight[id].RestartConfirmation? && !t.flight[id].RestartServiceUpdate?
    ensures Tokens(t)
  {
    forall e: nat | e < |t.events| ensures EventToken(t, e) { assert EventToken(s, e); }
    forall id | id in t.flight ensures FlightToken(t, id) {
      if id < s.next { assert FlightToken(s, id); }
    }
    forall h | h in t.nodes ensures ConsumerToken(t, h) { assert ConsumerToken(s, h); }
    forall k | k in t.past ensures Backed(t, k) { assert Backed(s, k); }
  }

  lemma KeepsLinks(s: Cluster, t: Cluster)
    requires SameLog(s, t) && s.past.Keys == s.store.jobs.Keys && Tokens(s) && Links(s)
    requires SameTokens(s, t)
    requires forall id :: id in s.flight ==> id in t.flight && t.flight[id] == s.flight[id]
    ensures Links(t)
  {
    forall k | k in t.past ensures LinkOk(t, k) { assert LinkOk(s, k) && Backed(s, k); }
  }

  // --- A user's command enters the flight. ---

  lemma SendsKeepsInv(s: Cluster, c: Command)
    requires Inv(s) && (c.SubmitJob? || c.CancelJob?)
    ensures Inv(Send(s, c))
  {
    var t := Send(s, c);
    forall h | h in t.nodes ensures QueueOk(t, h) { assert QueueOk(s, h); }
    KeepsShape(s, t);
    KeepsSnapshots(s, t);
    KeepsPools(s, t);
    KeepsBarriers(s, t);
    KeepsTokens(s, t);
    KeepsLinks(s, t);
  }

  // --- A replica applies its next log entry. ---

  lemma ApplyFrame(s: Cluster, t: Cluster, host: Host)
    requires Shape(s) && host in s.nodes && s.nodes[host].applied < |s.log|
    requires t == DoApply(s, host)
    ensures SameLog(s, t) && Flies(s, t) && SameTasks(s, t) && SameConsumers(s, t) && SameTokens(s, t) && Shape(t)
  {
    forall h | h in t.nodes ensures QueueOk(t, h) { assert QueueOk(s, h); }
  }

  lemma AppliesKeepsInv(s: Cluster, t: Cluster, host: Host)
    requires Inv(s) && host in s.nodes && s.nodes[host].applied < |s.log|
    requires t == DoApply(s, host)
    ensures Inv(t)
  {
    ApplyFrame(s, t, host);
    KeepsSnapshots(s, t);
    KeepsPools(s, t);
    KeepsBarriers(s, t);
    KeepsTokens(s, t);
    KeepsLinks(s, t);
  }

  // --- A command is lost; if it carried a token, the token is gone. ---

  lemma LosesKeepsTokens(s: Cluster, lost: nat)
    requires Tokens(s) && lost in s.flight
    ensures Tokens(DoLose(s, lost))
  {
    var t := DoLose(s, lost);
    forall e: nat | e < |t.events| ensures EventToken(t, e) { assert EventToken(s, e); }
    forall id | id in t.flight ensures FlightToken(t, id) { assert FlightToken(s, id); }
    forall h | h in t.nodes ensures ConsumerToken(t, h) { assert ConsumerToken(s, h); }
    forall k | k in t.past ensures Backed(t, k) { assert Backed(s, k); }
  }

  lemma LosesKeepsLinks(s: Cluster, t: Cluster, lost: nat)
    requires s.past.Keys == s.store.jobs.Keys && Tokens(s) && Links(s)
    requires lost in s.flight && t == DoLose(s, lost)
    ensures Links(t)
  {
    forall k | k in t.past ensures LinkOk(t, k) {
      assert LinkOk(s, k) && Backed(s, k);
      assert t.past[k] == s.past[k] || t.past[k] == s.past[k].(token := Spent);
    }
  }

  lemma LossFrame(s: Cluster, t: Cluster, lost: nat)
    requires Shape(s) && lost in s.flight && t == DoLose(s, lost)
    ensures SameLog(s, t) && Flies(s, t) && SameTasks(s, t) && t.next == s.next && t.nodes == s.nodes
    ensures forall k :: k in s.past ==> t.past[k].executed == s.past[k].executed
  {
  }

  lemma LosesKeepsShape(s: Cluster, t: Cluster, lost: nat)
    requires Shape(s) && lost in s.flight && t == DoLose(s, lost)
    ensures Shape(t)
  {
    LossFrame(s, t, lost);
    forall h | h in t.nodes ensures QueueOk(t, h) { assert QueueOk(s, h); }
    KeepsShape(s, t);
  }

  lemma LosesKeepsBarriers(s: Cluster, t: Cluster, lost: nat)
    requires Shape(s) && Pools(s) && Barriers(s) && Tokens(s) && lost in s.flight && t == DoLose(s, lost)
    ensures Barriers(t)
  {
    LossFrame(s, t, lost);
    KeepsBarriers(s, t);
  }

  lemma LosesKeepsInv(s: Cluster, t: Cluster, lost: nat)
    requires Inv(s) && lost in s.flight && t == DoLose(s, lost)
    ensures Inv(t)
  {
    LossFrame(s, t, lost);
    LosesKeepsShape(s, t, lost);
    KeepsSnapshots(s, t);
    KeepsPools(s, t);
    LosesKeepsBarriers(s, t, lost);
    LosesKeepsTokens(s, lost);
    LosesKeepsLinks(s, t, lost);
  }

  // --- A configuration task moves on. ---

  ghost predicate TaskStep(s: Cluster, t: Cluster, h: Host, k: JobKey, task: Task)
  {
    && SameLog(s, t) && Flies(s, t) && SameTokens(s, t)
    && h in s.nodes && k in s.nodes[h].tasks && !s.nodes[h].tasks[k].Reported?
    && t.nodes == SetTask(s, h, k, task)
    && (task.Announcing? || task.Reported? ==> task.id < t.next)
    && (forall j :: j in s.past ==> s.past[j].executed <= t.past[j].executed)
    && (forall id :: id in s.flight ==> id in t.flight && t.flight[id] == s.flight[id])
    && (forall id :: id in t.flight && id >= s.next ==> t.flight[id].ConfigurationUpdate?)
  }

  lemma TaskStepKeepsPools(s: Cluster, t: Cluster, h: Host, k: JobKey, task: Task)
    requires TaskStep(s, t, h, k, task) && s.past.Keys == s.store.jobs.Keys && Pools(s)
    ensures Pools(t)
  {
    forall g, j | g in t.nodes && j in t.past ensures JoinedOk(t, g, j) { assert JoinedOk(s, g, j); }
    forall g, j | g in t.nodes && j in t.nodes[g].tasks ensures TaskOk(t, g, j) { assert TaskOk(s, g, j); }
  }

  lemma TaskStepKeepsBarriers(s: Cluster, t: Cluster, h: Host, k: JobKey, task: Task)
    requires TaskStep(s, t, h, k, task) && s.past.Keys == s.store.jobs.Keys && Pools(s) && Barriers(s)
    requires forall id :: id in t.flight && id >= s.next ==> ReportOk(t, id)
    ensures Barriers(t)
  {
    forall id | id in t.flight ensures ReportOk(t, id) {
      if id < s.next { assert ReportOk(s, id); }
    }
    forall j, g | j in t.past ensures ConfiguredOk(t, j, g) {
      assert ConfiguredOk(s, j, g);
      if g in s.past[j].configured { assert TaskOk(s, g, j); }
    }
    forall j | j in t.past ensures BarrierOk(t.store.jobs[j], t.past[j]) {
      assert BarrierOk(s.store.jobs[j], s.past[j]);
    }
  }

  lemma TaskStepKeepsInv(s: Cluster, t: Cluster, h: Host, k: JobKey, task: Task)
    requires Inv(s) && TaskStep(s, t, h, k, task)
    requires forall id :: id in t.flight && id >= s.next ==> ReportOk(t, id)
    ensures Inv(t)
  {
    forall g | g in t.nodes ensures QueueOk(t, g) { assert QueueOk(s, g); }
    KeepsShape(s, t);
    KeepsSnapshots(s, t);
    TaskStepKeepsPools(s, t, h, k, task);
    TaskStepKeepsBarriers(s, t, h, k, task);
    KeepsTokens(s, t);
    KeepsLinks(s, t);
  }

  lemma AnnounceIsTaskStep(s: Cluster, t: Cluster, h: Host, k: JobKey)
    requires h in s.nodes && k in s.nodes[h].tasks && s.nodes[h].tasks[k].Spawned? && k in s.past
    requires forall id :: id in s.flight ==> id < s.next
    requires t == DoAnnounce(s, h, k)
    ensures TaskStep(s, t, h, k, Announcing(s.next))
    ensures forall id :: id in t.flight && id >= s.next ==> ReportOk(t, id)
  {
  }

  lemma AnnouncesKeepsInv(s: Cluster, t: Cluster, h: Host, k: JobKey)
    requires Inv(s) && h in s.nodes && k in s.nodes[h].tasks && s.nodes[h].tasks[k].Spawned?
    requires t == DoAnnounce(s, h, k)
    ensures Inv(t)
  {
    assert TaskOk(s, h, k);
    AnnounceIsTaskStep(s, t, h, k);
    TaskStepKeepsInv(s, t, h, k, Announcing(s.next));
  }

  lemma ProceedsKeepsInv(s: Cluster, t: Cluster, h: Host, k: JobKey)
    requires Inv(s) && h in s.nodes && k in s.nodes[h].tasks && s.nodes[h].tasks[k].Announcing?
    requires t == DoProceed(s, h, k)
    ensures Inv(t)
  {
    TaskStepKeepsInv(s, t, h, k, Executing);
  }

  lemma ReportIsTaskStep(s: Cluster, t: Cluster, h: Host, k: JobKey, result: Result)
    requires h in s.nodes && k in s.nodes[h].tasks && s.nodes[h].tasks[k].Executing? && k in s.past
    requires forall id :: id in s.flight ==> id < s.next
    requires t == DoReport(s, h, k, result)
    ensures TaskStep(s, t, h, k, Reported(s.next))
    ensures forall id :: id in t.flight && id >= s.next ==> ReportOk(t, id)
  {
  }

  lemma ReportsKeepsInv(s: Cluster, t: Cluster, h: Host, k: JobKey, result: Result)
    requires Inv(s) && h in s.nodes && k in s.nodes[h].tasks && s.nodes[h].tasks[k].Executing?
    requires t == DoReport(s, h, k, result)
    ensures Inv(t)
  {
    assert TaskOk(s, h, k);
    ReportIsTaskStep(s, t, h, k, result);
    TaskStepKeepsInv(s, t, h, k, Reported(s.next));
  }

  // --- The token of one job moves, at one host. ---

  predicate AboutHost(s: Cluster, e: nat, host: Host)
    requires e < |s.events|
  {
    || (IsTrigger(s.events[e]) && s.events[e].trigger == host)
    || (s.events[e].RestartConfirmed? && s.events[e].target == host)
  }

  // What `host` does takes the token of job k from Triggered, Permission, Prepares or Runs to a
  // new place, and nothing else changes.
  ghost predicate Moves(s: Cluster, t: Cluster, host: Host, k: JobKey) {
    && SameLog(s, t) && Flies(s, t) && SameTasks(s, t)
    && host in s.nodes && k in s.past
    && (forall j :: j in s.past && j != k ==> t.past[j] == s.past[j])
    && (forall h :: h in s.nodes && h != host ==> t.nodes[h] == s.nodes[h])
    && (forall id :: id in s.flight ==> id in t.flight && t.flight[id] == s.flight[id])
    && s.nodes[host].handled <= t.nodes[host].handled <= s.nodes[host].handled + 1
    && t.past[k].executed == s.past[k].executed
    && s.past[k].token != AtBarrier
    // the host was busy with no other job
    && (s.nodes[host].consumer.Preparing? || s.nodes[host].consumer.InDeploy? ==> s.nodes[host].consumer.key == k)
    // an event taken from the queue was the token of k, if it was a token at all
    && (forall e: nat :: s.nodes[host].handled <= e < t.nodes[host].handled && e < |s.events| ==>
          AboutHost(s, e, host) ==> s.events[e].job.key == k)
  }

  // The old place of the token is given up.
  ghost predicate LetsGo(s: Cluster, t: Cluster, host: Host, k: JobKey)
    requires k in s.past
  {
    match s.past[k].token
    case Triggered(e) => e < |s.events| && IsTrigger(s.events[e]) && !Unhandled(t, s.events[e].trigger, e)
    case Permission(e) => e < |s.events| && s.events[e].RestartConfirmed? && !Unhandled(t, s.events[e].target, e)
    case Prepares(h) => h == host
    case Runs(h) => h == host
    case _ => false
  }

  lemma MovesKeepsTokens(s: Cluster, t: Cluster, host: Host, k: JobKey)
    requires Moves(s, t, host, k) && LetsGo(s, t, host, k) && Tokens(s)
    requires forall id :: id in t.flight && id >= s.next ==> FlightToken(t, id)
    requires ConsumerToken(t, host) && Backed(t, k)
    ensures Tokens(t)
  {
    forall e: nat | e < |t.events| ensures EventToken(t, e) { assert EventToken(s, e); }
    forall id | id in t.flight ensures FlightToken(t, id) {
      if id < s.next { assert FlightToken(s, id); }
    }
    forall h | h in t.nodes ensures ConsumerToken(t, h) { assert ConsumerToken(s, h); }
    forall j | j in t.past ensures Backed(t, j) { assert Backed(s, j); }
  }

  lemma MovesKeepsLinks(s: Cluster, t: Cluster, host: Host, k: JobKey)
    requires Moves(s, t, host, k) && Tokens(s)
    requires s.past.Keys == s.store.jobs.Keys && Links(s)
    requires LinkOk(t, k)
    ensures Links(t)
  {
    forall j | j in t.past ensures LinkOk(t, j) { assert LinkOk(s, j) && Backed(s, j); }
  }

  // All that a move has to show: the new place of the token is real, and the job's record fits it.
  ghost predicate Arrives(s: Cluster, t: Cluster, host: Host, k: JobKey) {
    && Moves(s, t, host, k) && LetsGo(s, t, host, k)
    && (forall id :: id in t.flight && id >= s.next ==> FlightToken(t, id) && !t.flight[id].ConfigurationUpdate?)
    && ConsumerToken(t, host) && Backed(t, k)
    && k in t.store.jobs && LinkOk(t, k)
    && t.past[k].token != AtBarrier
  }

  lemma ArrivesKeepsInv(s: Cluster, t: Cluster, host: Host, k: JobKey)
    requires Inv(s) && Arrives(s, t, host, k)
    requires Shape(t) && Pools(t)
    ensures Inv(t)
  {
    KeepsSnapshots(s, t);
    KeepsBarriers(s, t);
    MovesKeepsTokens(s, t, host, k);
    MovesKeepsLinks(s, t, host, k);
  }

  lemma MoveKeepsQueues(s: Cluster, t: Cluster)
    requires Shape(s) && Pools(s) && SameLog(s, t) && Flies(s, t) && SameTasks(s, t)
    requires forall h :: h in s.nodes ==>
             t.nodes[h].applied == s.nodes[h].applied && t.nodes[h].handled == s.nodes[h].handled
    ensures Shape(t) && Pools(t)
  {
    forall h | h in t.nodes ensures QueueOk(t, h) { assert QueueOk(s, h); }
    KeepsShape(s, t);
    KeepsPools(s, t);
  }

  // --- A publisher stops waiting. ---

  lemma PreparedMoves(s: Cluster, t: Cluster, h: Host, k: JobKey)
    requires h in s.nodes && s.nodes[h].consumer.Preparing? && s.nodes[h].consumer.key == k
    requires k in s.past && ConsumerToken(s, h)
    requires forall id :: id in s.flight ==> id < s.next
    requires t == DoReturn(s, h)
    ensures Moves(s, t, h, k) && LetsGo(s, t, h, k) && t.flight == s.flight
  {
  }

  lemma PreparedMovesThere(s: Cluster, t: Cluster, h: Host, k: JobKey)
    requires h in s.nodes && s.nodes[h].consumer.Preparing? && s.nodes[h].consumer.key == k
    requires k in s.past && k in s.store.jobs
    requires ConsumerToken(s, h) && LinkOk(s, k)
    requires t == DoReturn(s, h)
    ensures ConsumerToken(t, h) && k in t.past && Backed(t, k) && LinkOk(t, k) && t.past[k].token != AtBarrier
  {
    var order, c := s.store.jobs[k].order, s.store.jobs[k].cursor.value;
    assert order[..c + 1] == order[..c] + [order[c]];
  }

  lemma PreparedArrives(s: Cluster, t: Cluster, h: Host, k: JobKey)
    requires h in s.nodes && s.nodes[h].consumer.Preparing? && s.nodes[h].consumer.key == k
    requires k in s.past && k in s.store.jobs && ConsumerToken(s, h) && LinkOk(s, k)
    requires forall id :: id in s.flight ==> id < s.next
    requires t == DoReturn(s, h)
    ensures Arrives(s, t, h, k)
    ensures forall g :: g in s.nodes ==>
              t.nodes[g].applied == s.nodes[g].applied && t.nodes[g].handled == s.nodes[g].handled
  {
    PreparedMoves(s, t, h, k);
    PreparedMovesThere(s, t, h, k);
  }

  lemma PreparedKeepsInv(s: Cluster, t: Cluster, h: Host)
    requires Inv(s) && h in s.nodes && s.nodes[h].consumer.Preparing?
    requires t == DoReturn(s, h)
    ensures Inv(t)
  {
    var k := s.nodes[h].consumer.key;
    assert ConsumerToken(s, h) && LinkOk(s, k);
    PreparedArrives(s, t, h, k);
    MoveKeepsQueues(s, t);
    ArrivesKeepsInv(s, t, h, k);
  }

  lemma IdleKeepsTokens(s: Cluster, t: Cluster, h: Host)
    requires Tokens(s) && h in s.nodes && (s.nodes[h].consumer.Confirming? || s.nodes[h].consumer.Reporting?)
    requires t == s.(nodes := s.nodes[h := s.nodes[h].(consumer := Idle)])
    ensures Tokens(t)
  {
    forall e: nat | e < |t.events| ensures EventToken(t, e) { assert EventToken(s, e); }
    forall id | id in t.flight ensures FlightToken(t, id) { assert FlightToken(s, id); }
    forall g | g in t.nodes ensures ConsumerToken(t, g) { assert ConsumerToken(s, g); }
    forall k | k in t.past ensures Backed(t, k) { assert Backed(s, k); }
  }

  lemma IdleFrame(s: Cluster, t: Cluster, h: Host)
    requires Shape(s) && h in s.nodes && (s.nodes[h].consumer.Confirming? || s.nodes[h].consumer.Reporting?)
    requires t == DoReturn(s, h)
    ensures SameLog(s, t) && Flies(s, t) && SameTasks(s, t) && SameTokens(s, t) && Shape(t)
    ensures t.flight == s.flight && t.past == s.past
    ensures forall g :: g in s.nodes ==> t.nodes[g].handled == s.nodes[g].handled
    ensures t == s.(nodes := s.nodes[h := s.nodes[h].(consumer := Idle)])
  {
    forall g | g in t.nodes ensures QueueOk(t, g) { assert QueueOk(s, g); }
  }

  lemma IdleKeepsInv(s: Cluster, t: Cluster, h: Host)
    requires Inv(s) && h in s.nodes && (s.nodes[h].consumer.Confirming? || s.nodes[h].consumer.Reporting?)
    requires t == DoReturn(s, h)
    ensures Inv(t)
  {
    IdleFrame(s, t, h);
    KeepsSnapshots(s, t);
    KeepsPools(s, t);
    KeepsBarriers(s, t);
    KeepsLinks(s, t);
    IdleKeepsTokens(s, t, h);
  }

  // --- Deploy returns. ---

  lemma FinishMoves(s: Cluster, t: Cluster, h: Host, k: JobKey, result: Result)
    requires h in s.nodes && s.nodes[h].consumer == InDeploy(k)
    requires k in s.past && ConsumerToken(s, h)
    requires forall id :: id in s.flight ==> id < s.next
    requires t == DoFinish(s, h, result)
    ensures Moves(s, t, h, k) && LetsGo(s, t, h, k)
  {
  }

  lemma FinishMovesThere(s: Cluster, t: Cluster, h: Host, k: JobKey, result: Result)
    requires h in s.nodes && s.nodes[h].consumer == InDeploy(k)
    requires k in s.past && k in s.store.jobs
    requires ConsumerToken(s, h) && LinkOk(s, k)
    requires forall id :: id in s.flight ==> id < s.next
    requires t == DoFinish(s, h, result)
    ensures forall id :: id in t.flight && id >= s.next ==> FlightToken(t, id) && !t.flight[id].ConfigurationUpdate?
    ensures ConsumerToken(t, h) && k in t.past && Backed(t, k) && LinkOk(t, k) && t.past[k].token != AtBarrier
  {
  }

  lemma FinishArrives(s: Cluster, t: Cluster, h: Host, k: JobKey, result: Result)
    requires h in s.nodes && s.nodes[h].consumer == InDeploy(k)
    requires k in s.past && k in s.store.jobs && ConsumerToken(s, h) && LinkOk(s, k)
    requires forall id :: id in s.flight ==> id < s.next
    requires t == DoFinish(s, h, result)
    ensures Arrives(s, t, h, k)
    ensures forall g :: g in s.nodes ==>
              t.nodes[g].applied == s.nodes[g].applied && t.nodes[g].handled == s.nodes[g].handled
  {
    FinishMoves(s, t, h, k, result);
    FinishMovesThere(s, t, h, k, result);
  }

  lemma FinishesKeepsInv(s: Cluster, t: Cluster, h: Host, result: Result)
    requires Inv(s) && h in s.nodes && s.nodes[h].consumer.InDeploy?
    requires t == DoFinish(s, h, result)
    ensures Inv(t)
  {
    var k := s.nodes[h].consumer.key;
    assert ConsumerToken(s, h) && LinkOk(s, k);
    FinishArrives(s, t, h, k, result);
    MoveKeepsQueues(s, t);
    ArrivesKeepsInv(s, t, h, k);
  }

  // --- The consumer takes an event. ---

  ghost predicate CanHandle(s: Cluster, h: Host) {
    && h in s.nodes && s.nodes[h].consumer == Idle && s.nodes[h].applied < |s.marks|
    && s.nodes[h].handled < s.marks[s.nodes[h].applied] <= |s.events|
  }

  // The job of a restart event is always known to its target: the branch of the program that
  // says this should not be possible is never taken by the host that matters.
  lemma TargetKnowsTheJob(s: Cluster, h: Host)
    requires Inv(s) && h in s.nodes && s.nodes[h].handled < |s.events|
    requires s.events[s.nodes[h].handled].RestartConfirmed? && s.events[s.nodes[h].handled].target == h
    ensures s.events[s.nodes[h].handled].job.key in s.nodes[h].tasks
  {
    var e := s.nodes[h].handled;
    var k := s.events[e].job.key;
    assert SnapshotOk(s, e) && EventToken(s, e) && LinkOk(s, k) && EntryOk(s.store, k);
    assert s.store.jobs[k].order[s.store.jobs[k].cursor.value] == h;
    assert JoinedOk(s, h, k);
  }

  lemma HandlesKeepsPools(s: Cluster, t: Cluster, h: Host)
    requires s.past.Keys == s.store.jobs.Keys && Snapshots(s) && Pools(s)
    requires CanHandle(s, h) && SameLog(s, t)
    requires forall g :: g in s.nodes && g != h ==> t.nodes[g] == s.nodes[g]
    requires t.nodes[h].handled == s.nodes[h].handled + 1
    requires var r := Answer(s, h);
             t.nodes[h].tasks == if r.Configure? then s.nodes[h].tasks[r.key := Spawned] else s.nodes[h].tasks
    ensures Pools(t)
  {
    var e := s.nodes[h].handled;
    assert SnapshotOk(s, e);
    forall g, j | g in t.nodes && j in t.past ensures JoinedOk(t, g, j) {
      assert JoinedOk(s, g, j) && BornOk(s, j);
    }
    forall g, j | g in t.nodes && j in t.nodes[g].tasks ensures TaskOk(t, g, j) {
      assert j in s.nodes[g].tasks ==> TaskOk(s, g, j);
    }
  }

  lemma PassedOverKeepsTokens(s: Cluster, t: Cluster, h: Host)
    requires Tokens(s) && SameLog(s, t) && SameTokens(s, t) && t.flight == s.flight
    requires CanHandle(s, h) && !AboutHost(s, s.nodes[h].handled, h)
    requires forall g :: g in s.nodes && g != h ==> t.nodes[g] == s.nodes[g]
    requires t.nodes[h].handled == s.nodes[h].handled + 1 && t.nodes[h].consumer == Idle
    ensures Tokens(t)
  {
    forall e: nat | e < |t.events| ensures EventToken(t, e) { assert EventToken(s, e); }
    forall id | id in t.flight ensures FlightToken(t, id) { assert FlightToken(s, id); }
    forall g | g in t.nodes ensures ConsumerToken(t, g) { assert ConsumerToken(s, g); }
    forall k | k in t.past ensures Backed(t, k) { assert Backed(s, k); }
  }

  lemma HandlesKeepsQueues(s: Cluster, t: Cluster, h: Host)
    requires Shape(s) && CanHandle(s, h) && SameLog(s, t) && Flies(s, t)
    requires forall g :: g in s.nodes && g != h ==> t.nodes[g] == s.nodes[g]
    requires t.nodes[h].handled == s.nodes[h].handled + 1 && t.nodes[h].applied == s.nodes[h].applied
    ensures Shape(t)
  {
    forall g | g in t.nodes ensures QueueOk(t, g) { assert QueueOk(s, g); }
    KeepsShape(s, t);
  }

  lemma IgnoresKeepsInv(s: Cluster, t: Cluster, h: Host)
    requires Inv(s) && CanHandle(s, h) && t == DoHandle(s, h)
    requires Answer(s, h).Ignore?
    ensures Inv(t)
  {
    var e := s.nodes[h].handled;
    if s.events[e].RestartConfirmed? && s.events[e].target == h {
      TargetKnowsTheJob(s, h);
    }
    HandlesKeepsQueues(s, t, h);
    KeepsSnapshots(s, t);
    HandlesKeepsPools(s, t, h);
    KeepsBarriers(s, t);
    PassedOverKeepsTokens(s, t, h);
    KeepsLinks(s, t);
  }

  lemma SpawnKeepsBarriers(s: Cluster, t: Cluster, h: Host, k: JobKey)
    requires SameLog(s, t) && SameTokens(s, t) && t.flight == s.flight
    requires s.past.Keys == s.store.jobs.Keys && Barriers(s)
    requires h in s.nodes && k !in s.nodes[h].tasks
    requires forall g :: g in s.nodes && g != h ==> t.nodes[g] == s.nodes[g]
    requires t.nodes[h].tasks == s.nodes[h].tasks[k := Spawned]
    requires forall j :: j in s.past ==> t.past[j].executed == s.past[j].executed
    ensures Barriers(t)
  {
    forall id | id in t.flight ensures ReportOk(t, id) { assert ReportOk(s, id); }
    forall j, g | j in t.past ensures ConfiguredOk(t, j, g) { assert ConfiguredOk(s, j, g); }
    forall j | j in t.past ensures BarrierOk(t.store.jobs[j], t.past[j]) {
      assert BarrierOk(s.store.jobs[j], s.past[j]);
    }
  }

  lemma ConfiguresKeepsInv(s: Cluster, t: Cluster, h: Host)
    requires Inv(s) && CanHandle(s, h) && t == DoHandle(s, h)
    requires Answer(s, h).Configure?
    ensures Inv(t)
  {
    HandlesKeepsQueues(s, t, h);
    KeepsSnapshots(s, t);
    HandlesKeepsPools(s, t, h);
    SpawnKeepsBarriers(s, t, h, s.events[s.nodes[h].handled].job.key);
    PassedOverKeepsTokens(s, t, h);
    KeepsLinks(s, t);
  }

  lemma ConfirmFrame(s: Cluster, t: Cluster, h: Host, k: JobKey)
    requires h in s.nodes && t == DoConfirm(s, h, k) && k in s.past
    requires forall id :: id in s.flight ==> id < s.next
    ensures SameLog(s, t) && Flies(s, t) && SameTasks(s, t) && t.past[k].executed == s.past[k].executed
    ensures forall j :: j in s.past && j != k ==> t.past[j] == s.past[j]
    ensures forall g :: g in s.nodes && g != h ==> t.nodes[g] == s.nodes[g]
    ensures forall id :: id in s.flight ==> id in t.flight && t.flight[id] == s.flight[id]
    ensures t.nodes[h].handled == s.nodes[h].handled + 1
  {
  }

  lemma ConfirmMoves(s: Cluster, t: Cluster, h: Host, k: JobKey)
    requires CanHandle(s, h) && t == DoConfirm(s, h, k)
    requires IsTrigger(s.events[s.nodes[h].handled]) && s.events[s.nodes[h].handled].trigger == h
    requires s.events[s.nodes[h].handled].job.key == k && k in s.past
    requires EventToken(s, s.nodes[h].handled)
    requires forall id :: id in s.flight ==> id < s.next
    ensures Moves(s, t, h, k) && LetsGo(s, t, h, k)
  {
    ConfirmFrame(s, t, h, k);
  }

  lemma ConfirmMovesThere(s: Cluster, t: Cluster, h: Host, k: JobKey)
    requires CanHandle(s, h) && t == DoConfirm(s, h, k)
    requires IsTrigger(s.events[s.nodes[h].handled]) && s.events[s.nodes[h].handled].trigger == h
    requires s.events[s.nodes[h].handled].job.key == k && k in s.past && k in s.store.jobs
    requires EventToken(s, s.nodes[h].handled) && LinkOk(s, k)
    requires forall id :: id in s.flight ==> id < s.next
    ensures forall id :: id in t.flight && id >= s.next ==> FlightToken(t, id) && !t.flight[id].ConfigurationUpdate?
    ensures ConsumerToken(t, h) && k in t.past && Backed(t, k) && LinkOk(t, k) && t.past[k].token != AtBarrier
  {
  }

  lemma PrepareFrame(s: Cluster, t: Cluster, h: Host, k: JobKey)
    requires h in s.nodes && t == DoPrepare(s, h, k) && k in s.past
    requires forall id :: id in s.flight ==> id < s.next
    ensures SameLog(s, t) && Flies(s, t) && SameTasks(s, t) && t.past[k].executed == s.past[k].executed
    ensures forall j :: j in s.past && j != k ==> t.past[j] == s.past[j]
    ensures forall g :: g in s.nodes && g != h ==> t.nodes[g] == s.nodes[g]
    ensures forall id :: id in s.flight ==> id in t.flight && t.flight[id] == s.flight[id]
    ensures t.nodes[h].handled == s.nodes[h].handled + 1
  {
  }

  lemma PrepareMoves(s: Cluster, t: Cluster, h: Host, k: JobKey)
    requires CanHandle(s, h) && t == DoPrepare(s, h, k)
    requires s.events[s.nodes[h].handled].RestartConfirmed? && s.events[s.nodes[h].handled].target == h
    requires s.events[s.nodes[h].handled].job.key == k && k in s.past
    requires EventToken(s, s.nodes[h].handled)
    requires forall id :: id in s.flight ==> id < s.next
    ensures Moves(s, t, h, k) && LetsGo(s, t, h, k)
  {
    PrepareFrame(s, t, h, k);
  }

  lemma PrepareMovesThere(s: Cluster, t: Cluster, h: Host, k: JobKey)
    requires CanHandle(s, h) && t == DoPrepare(s, h, k)
    requires s.events[s.nodes[h].handled].RestartConfirmed? && s.events[s.nodes[h].handled].target == h
    requires s.events[s.nodes[h].handled].job.key == k && k in s.past && k in s.store.jobs
    requires EventToken(s, s.nodes[h].handled) && LinkOk(s, k)
    requires forall id :: id in s.flight ==> id < s.next
    ensures forall id :: id in t.flight && id >= s.next ==> FlightToken(t, id) && !t.flight[id].ConfigurationUpdate?
    ensures ConsumerToken(t, h) && k in t.past && Backed(t, k) && LinkOk(t, k) && t.past[k].token != AtBarrier
  {
  }

  lemma AnswersKeepsInv(s: Cluster, t: Cluster, h: Host)
    requires Inv(s) && CanHandle(s, h) && t == DoHandle(s, h)
    requires var r := Answer(s, h); r.Confirm? || r.Restart?
    ensures Inv(t)
  {
    var e := s.nodes[h].handled;
    var k := s.events[e].job.key;
    assert EventToken(s, e) && LinkOk(s, k);
    match Answer(s, h) {
      case Confirm(_) =>
        ConfirmMoves(s, t, h, k);
        ConfirmMovesThere(s, t, h, k);
      case Restart(_) =>
        PrepareMoves(s, t, h, k);
        PrepareMovesThere(s, t, h, k);
    }
    HandlesKeepsQueues(s, t, h);
    HandlesKeepsPools(s, t, h);
    ArrivesKeepsInv(s, t, h, k);
  }

  lemma HandlesKeepsInv(s: Cluster, t: Cluster, h: Host)
    requires Inv(s) && CanHandle(s, h) && t == DoHandle(s, h)
    ensures Inv(t)
  {
    match Answer(s, h) {
      case Ignore => IgnoresKeepsInv(s, t, h);
      case Configure(_) => ConfiguresKeepsInv(s, t, h);
      case Confirm(_) => AnswersKeepsInv(s, t, h);
      case Restart(_) => AnswersKeepsInv(s, t, h);
    }
  }
}
