/**
 Which restart reports are accepted.  A report is judged when it is committed, and it may be
 committed long after its publisher has given up waiting for it.
 */
module HandOff {
  import opened Entities
  import opened RaftApp
  import opened RaftAppInvariants
  import opened Controller
  import opened Cluster
  import opened ClusterInvariant
  import opened ClusterCommit
  import opened ClusterTheorems
  import opened Traffic
  import opened Drive
  import opened Fate

  // In every reachable state, a restart report in flight, be it RESTARTING or a verdict, is
  // accepted exactly if its job is DEPLOYING and its host is the one at the cursor.
  lemma RestartReportAccepted(s: Cluster, id: nat)
    requires Reachable(s) && id in s.flight && s.flight[id].RestartServiceUpdate?
    ensures var c := s.flight[id];
            && c.key in s.store.jobs
            && var job := s.store.jobs[c.key];
               && (job.status == Deploying ==> job.cursor.Some? && job.cursor.value < |job.order|)
               && (Apply(s.store, c).error == None <==>
                     job.status == Deploying && job.order[job.cursor.value] == c.host)
  {
    ReachableKnown(s);
    JobIsKnown(s, s.flight[id].key);
  }

  // --- Publishers that wait. ---

  // A host does not enter Deploy while its RESTARTING report is in flight.
  predicate Waits(s: Cluster, a: Action)
    requires Enabled(s, a)
  {
    a.Returns? && s.nodes[a.host].consumer.Preparing? ==> s.nodes[a.host].consumer.id !in s.flight
  }

  predicate WaitRun(s: Cluster, actions: seq<Action>, t: Cluster)
    decreases |actions|
  {
    if actions == [] then s == t
    else Enabled(s, actions[0]) && Waits(s, actions[0]) && WaitRun(Do(s, actions[0]), actions[1..], t)
  }

  // A RESTARTING report in flight has its publisher waiting for it.
  ghost predicate AwaitedReport(s: Cluster, id: nat)
    requires id in s.flight
  {
    var c := s.flight[id];
    c.RestartServiceUpdate? && !Verdict(c.deployment) ==>
      c.host in s.nodes && s.nodes[c.host].consumer == Preparing(c.key, id)
  }

  ghost predicate Awaited(s: Cluster) {
    forall id {:trigger AwaitedReport(s, id)} :: id in s.flight ==> AwaitedReport(s, id)
  }

  lemma ConsumerGoesOnWaiting(s: Cluster, t: Cluster, a: Action, h: Host)
    requires Enabled(s, a) && t == Do(s, a) && h in s.nodes && s.nodes[h].consumer.Preparing? && a != Returns(h)
    ensures h in t.nodes && t.nodes[h].consumer == s.nodes[h].consumer
  {
  }

  lemma NewReportIsAwaited(s: Cluster, t: Cluster, a: Action, id: nat)
    requires Enabled(s, a) && t == Do(s, a) && id in t.flight && id !in s.flight
    ensures AwaitedReport(t, id)
  {
  }

  lemma StepKeepsAwaited(s: Cluster, t: Cluster, a: Action)
    requires Awaited(s) && Enabled(s, a) && Waits(s, a) && t == Do(s, a)
    requires forall id :: id in s.flight ==> id < s.next
    ensures Awaited(t)
  {
    forall id | id in t.flight ensures AwaitedReport(t, id) {
      if id in s.flight {
        StepTalks(s, t, a);
        var c := s.flight[id];
        assert AwaitedReport(s, id) && t.flight[id] == c;
        if c.RestartServiceUpdate? && !Verdict(c.deployment) { ConsumerGoesOnWaiting(s, t, a, c.host); }
      } else {
        NewReportIsAwaited(s, t, a, id);
      }
    }
  }

  lemma {:induction false} WaitRunKeepsAwaited(s: Cluster, actions: seq<Action>, t: Cluster)
    requires Inv(s) && Awaited(s) && WaitRun(s, actions, t)
    ensures Inv(t) && Awaited(t)
    decreases |actions|
  {
    if actions != [] {
      StepKeepsInv(s, actions[0]);
      StepKeepsAwaited(s, Do(s, actions[0]), actions[0]);
      WaitRunKeepsAwaited(Do(s, actions[0]), actions[1..], t);
    }
  }

  lemma ReporterIsUnderWay(s: Cluster, id: nat)
    requires Inv(s) && id in s.flight && s.flight[id].RestartServiceUpdate? && AwaitedReport(s, id)
    ensures s.flight[id].key in s.past && UnderWay(s.store.jobs[s.flight[id].key], Some(s.flight[id].host))
  {
    var c := s.flight[id];
    if Verdict(c.deployment) {
      assert FlightToken(s, id);
    } else {
      assert ConsumerToken(s, c.host);
    }
    assert LinkOk(s, c.key);
  }

  // Hand-off: where publishers wait, every restart report is accepted unless its job has been
  // cancelled meanwhile, whatever else fails or is lost.
  lemma {:induction false} EveryReportAccepted(s0: Cluster, actions: seq<Action>, s: Cluster, id: nat)
    requires Initial(s0) && WaitRun(s0, actions, s) && id in s.flight && s.flight[id].RestartServiceUpdate?
    ensures s.flight[id].key in s.store.jobs
    ensures Apply(s.store, s.flight[id]).error == None <==> s.store.jobs[s.flight[id].key].status != Cancelled
  {
    InitialInv(s0);
    WaitRunKeepsAwaited(s0, actions, s);
    assert AwaitedReport(s, id);
    ReporterIsUnderWay(s, id);
  }

  // --- Publishers that do not. ---

  // A host that has announced its restart gives up waiting, fails, and its verdict overtakes the
  // announcement.
  lemma VerdictOvertakes(s: Cluster, h: Host, k: JobKey) returns (t: Cluster)
    requires Reachable(s) && Announced(s, h, k)
    ensures Reachable(t) && s.nodes[h].consumer.id in t.flight
    ensures t.flight[s.nodes[h].consumer.id] == RestartServiceUpdate(k, h, DeploymentRestarting)
    ensures k in t.store.jobs && t.store.jobs[k].status != Cancelled
    ensures Apply(t.store, RestartServiceUpdate(k, h, DeploymentRestarting)).error != None
  {
    ReachableInv(s);
    var r := s.nodes[h].consumer.id;
    assert r < s.next;
    var n := DeployFails(s, h, k);
    Follow(n, Commits(s.next));
    t := DoCommit(n, s.next);
    FailureEndsJob(n, t, s.next, h, k);
  }

  lemma DeployFails(s: Cluster, h: Host, k: JobKey) returns (t: Cluster)
    requires Reachable(s) && Announced(s, h, k)
    ensures Reachable(t) && t.store == s.store
    ensures t.flight == s.flight[s.next := RestartServiceUpdate(k, h, DeploymentFailed)]
  {
    Follow(s, Returns(h));
    var m := DoReturn(s, h);
    Follow(m, Finishes(h, Errored(false)));
    t := DoFinish(m, h, Errored(false));
  }

  lemma FailureEndsJob(s: Cluster, t: Cluster, id: nat, h: Host, k: JobKey)
    requires Reachable(s) && id in s.flight && s.flight[id] == RestartServiceUpdate(k, h, DeploymentFailed)
    requires t == DoCommit(s, id) && k in s.store.jobs && s.store.jobs[k].key == k
    requires s.store.jobs[k].status == Deploying && s.store.jobs[k].order == [h]
    ensures k in t.store.jobs && t.store.jobs[k].status == Failed
  {
    RestartReportAccepted(s, id);
  }

  // So without waiting a report can be refused although nothing has been cancelled, on every host
  // and for every service.
  lemma LateReportRefused(s0: Cluster, h: Host, ns: string, service: string) returns (t: Cluster, id: nat)
    requires Initial(s0) && h in s0.nodes && ServiceKey(ns, service) !in s0.store.instances
    ensures Reachable(t) && id in t.flight && t.flight[id].RestartServiceUpdate?
    ensures t.flight[id].key in t.store.jobs && t.store.jobs[t.flight[id].key].status != Cancelled
    ensures Apply(t.store, t.flight[id]).error != None
  {
    assert Run(s0, [], s0);
    var s, k := CanRestart(s0, h, ns, service);
    id := s.nodes[h].consumer.id;
    t := VerdictOvertakes(s, h, k);
  }

  // --- A verdict that is not a SUCCESS. ---

  lemma CommitKeepsSpent(s: Cluster, t: Cluster, id: nat, k: JobKey)
    requires Inv(s) && id in s.flight && t == DoCommit(s, id) && k in s.past && s.past[k].token == Spent
    ensures k in t.past && t.past[k].token == Spent
  {
    var c := s.flight[id];
    assert FlightToken(s, id);
    CommitIsCommitted(s, t, id);
    if c.SubmitJob? {
      NextKeyIsNew(s.store, c.request);
    } else if c.key == k {
      if c.ConfigurationUpdate? && |Apply(s.store, c).events| == 2 { AnnouncementFindsBarrier(s, id); }
      CommitPassesOn(s, t, id, k);
    }
  }

  lemma StepKeepsSpent(s: Cluster, t: Cluster, a: Action, k: JobKey)
    requires Inv(s) && Enabled(s, a) && t == Do(s, a) && k in s.past && s.past[k].token == Spent
    ensures k in t.past && t.past[k].token == Spent
  {
    if a.Commits? {
      CommitKeepsSpent(s, t, a.id, k);
    } else if Passes(a) {
      PassingIsApart(s, t, a, k);
    } else if a.Finishes? {
      assert ConsumerToken(s, a.host);
    }
  }

  lemma {:induction false} RunKeepsSpent(s: Cluster, actions: seq<Action>, t: Cluster, k: JobKey)
    requires Inv(s) && Run(s, actions, t) && k in s.past && s.past[k].token == Spent
    ensures k in t.past && t.past[k].token == Spent
    decreases |actions|
  {
    if actions != [] {
      StepKeepsInv(s, actions[0]);
      StepKeepsSpent(s, Do(s, actions[0]), actions[0], k);
      RunKeepsSpent(Do(s, actions[0]), actions[1..], t, k);
    }
  }

  lemma BadVerdictSpends(s: Cluster, t: Cluster, id: nat, k: JobKey)
    requires Inv(s) && id in s.flight && s.flight[id].RestartServiceUpdate? && s.flight[id].key == k
    requires Verdict(s.flight[id].deployment) && s.flight[id].deployment != DeploymentSuccess && t == DoCommit(s, id)
    ensures Inv(t) && k in t.past && t.past[k].token == Spent
  {
    assert FlightToken(s, id);
    CommitKeepsInv(s, t, id);
  }

  // Once a verdict other than SUCCESS has been applied, no host ever has the floor of its job
  // again, also where the job stays DEPLOYING as it does after a TIMEOUT.
  lemma {:induction false} VerdictEndsTheFloor(s: Cluster, id: nat, actions: seq<Action>, t: Cluster, h: Host)
    requires Reachable(s) && id in s.flight && s.flight[id].RestartServiceUpdate?
    requires Verdict(s.flight[id].deployment) && s.flight[id].deployment != DeploymentSuccess
    requires Run(DoCommit(s, id), actions, t)
    ensures !HasFloor(t, s.flight[id].key, h)
  {
    var m, k := DoCommit(s, id), s.flight[id].key;
    ReachableInv(s);
    BadVerdictSpends(s, m, id, k);
    RunKeepsSpent(m, actions, t, k);
  }
}
