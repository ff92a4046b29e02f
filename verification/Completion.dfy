/**
 How runs end: every one can come to rest, and exactly which jobs are DEPLOYED there.
 */
module Completion {
  import opened Entities
  import opened RaftApp
  import opened RaftAppInvariants
  import opened Controller
  import opened Cluster
  import opened ClusterInvariant
  import opened ClusterCommit
  import opened ClusterTheorems
  import opened Traffic
  import opened Fate
  import opened Progress

  // Only users can still do something.
  ghost predicate AtRest(s: Cluster) {
    forall a :: Enabled(s, a) ==> a.Submits? || a.Cancels?
  }

  // A job that its hosts can carry out by themselves.
  predicate Able(s: Cluster, k: JobKey) {
    k in s.store.jobs && s.store.jobs[k].believe && forall h :: h in s.store.jobs[k].order ==> h in s.nodes
  }

  // --- The state at rest. ---

  lemma RestingFlightIsEmpty(s: Cluster)
    requires AtRest(s)
    ensures s.flight == map[]
  {
    forall id | id in s.flight ensures false { assert Enabled(s, Commits(id)); }
  }

  lemma RestingHostIsDone(s: Cluster, h: Host)
    requires AtRest(s) && Shape(s) && h in s.nodes
    ensures s.nodes[h].consumer == Idle && s.nodes[h].handled == |s.events|
    ensures forall k :: k in s.nodes[h].tasks ==> s.nodes[h].tasks[k].Reported?
  {
    QueuesAreBehind(s, h);
    assert !Enabled(s, Applies(h)) && !Enabled(s, Handles(h)) && !Enabled(s, Returns(h));
    assert !Enabled(s, Finishes(h, Succeeded));
    forall k | k in s.nodes[h].tasks ensures s.nodes[h].tasks[k].Reported? {
      assert !Enabled(s, Announces(h, k)) && !Enabled(s, Proceeds(h, k)) && !Enabled(s, Reports(h, k, Succeeded));
    }
  }

  // At the barrier, a host that is not blocked is SUCCESS by now.
  lemma RestingHostIsConfigured(s: Cluster, k: JobKey, h: Host)
    requires Inv(s) && AtRest(s) && k in s.past && h in s.nodes && h in s.store.jobs[k].configuration
    requires !Blocked(s, k, h)
    ensures s.store.jobs[k].configuration[h] == ConfigurationSuccess
  {
    RestingFlightIsEmpty(s);
    RestingHostIsDone(s, h);
    assert BornOk(s, k) && JoinedOk(s, h, k);
  }

  lemma RestingJobIsDeployed(s: Cluster, k: JobKey)
    requires Inv(s) && SoundAt(s, k) && AtRest(s) && Able(s, k) && !Hopeless(s, k)
    ensures s.store.jobs[k].status == Deployed
  {
    JobIsKnown(s, k);
    RestingFlightIsEmpty(s);
    var job := s.store.jobs[k];
    if s.past[k].token == AtBarrier {
      forall h | h in job.configuration ensures job.configuration[h] == ConfigurationSuccess {
        assert !Blocked(s, k, h);
        RestingHostIsConfigured(s, k, h);
      }
    }
    forall h | h in s.nodes ensures s.nodes[h].consumer == Idle && s.nodes[h].handled == |s.events| {
      RestingHostIsDone(s, h);
    }
  }

  // A DEPLOYED job was within reach of its hosts, and is not hopeless, at rest or not.
  lemma DeployedWasAble(s: Cluster, k: JobKey)
    requires Inv(s) && SoundAt(s, k) && k in s.store.jobs && s.store.jobs[k].status == Deployed
    ensures Able(s, k) && !Hopeless(s, k)
  {
    JobIsKnown(s, k);
    forall h | h in s.store.jobs[k].order ensures h in s.nodes {
      assert h in s.store.jobs[k].configuration;
      assert ConfiguredOk(s, k, h);
    }
  }

  // Progress, for every run: at rest, a job is DEPLOYED exactly if it believes, all its hosts run,
  // and no step of the run went wrong for it.
  lemma {:induction false} EndsDeployedExactly(s0: Cluster, actions: seq<Action>, s: Cluster, k: JobKey)
    requires Initial(s0) && Run(s0, actions, s) && AtRest(s) && k in s.store.jobs
    ensures s.store.jobs[k].status == Deployed <==> Able(s, k) && !HasGoneWrong(s0, actions, k, false)
  {
    InitialInv(s0);
    RunDecides(s0, actions, s, k);
    if s.store.jobs[k].status == Deployed {
      DeployedWasAble(s, k);
    } else if Able(s, k) && !Hopeless(s, k) {
      RestingJobIsDeployed(s, k);
    }
  }

  // --- Runs without cancellation, loss and failure. ---

  predicate Harmless(a: Action) {
    match a
    case Cancels(_) => false
    case Loses(_) => false
    case Finishes(_, result) => result.Succeeded?
    case Reports(_, _, result) => result.Succeeded?
    case _ => true
  }

  predicate AllHarmless(actions: seq<Action>) {
    forall a :: a in actions ==> Harmless(a)
  }

  // Whether any step of a run brought a late report.
  predicate HasLate(s: Cluster, actions: seq<Action>, k: JobKey, so: bool)
    decreases |actions|
  {
    if actions == [] || !Enabled(s, actions[0]) then so
    else HasLate(Do(s, actions[0]), actions[1..], k, so || Late(s, actions[0], k))
  }

  ghost predicate NothingCancelled(s: Cluster) {
    && (forall id :: id in s.flight ==> !s.flight[id].CancelJob?)
    && (forall k :: k in s.store.jobs ==> s.store.jobs[k].status != Cancelled)
  }

  lemma NobodyCancels(s: Cluster, t: Cluster, a: Action)
    requires NothingCancelled(s) && Enabled(s, a) && !a.Cancels? && t == Do(s, a)
    ensures forall id :: id in t.flight ==> !t.flight[id].CancelJob?
  {
    StepTalks(s, t, a);
  }

  lemma OnlyCancelJobCancels(store: Store, c: Command, k: JobKey)
    requires !c.CancelJob? && (k in store.jobs ==> store.jobs[k].status != Cancelled)
    requires Filed(store)
    ensures k in Apply(store, c).store.jobs ==> Apply(store, c).store.jobs[k].status != Cancelled
  {
    if k != Subject(store, c) { ApplyTouchesOneJob(store, c, k); }
  }

  lemma CommitCancelsNothing(s: Cluster, t: Cluster, id: nat)
    requires NothingCancelled(s) && Filed(s.store) && id in s.flight && t == DoCommit(s, id)
    ensures forall k :: k in t.store.jobs ==> t.store.jobs[k].status != Cancelled
  {
    forall k | k in t.store.jobs ensures t.store.jobs[k].status != Cancelled {
      OnlyCancelJobCancels(s.store, s.flight[id], k);
    }
  }

  lemma HarmlessStepKeepsNothingCancelled(s: Cluster, a: Action)
    requires Inv(s) && NothingCancelled(s) && Enabled(s, a) && Harmless(a)
    ensures NothingCancelled(Do(s, a))
  {
    var t := Do(s, a);
    NobodyCancels(s, t, a);
    if a.Commits? { CommitCancelsNothing(s, t, a.id); } else { OnlyCommitsDecide(s, t, a); }
  }

  lemma {:induction false} HarmlessRunIsOnlyLate(s: Cluster, actions: seq<Action>, t: Cluster, k: JobKey, so: bool)
    requires Inv(s) && NothingCancelled(s) && Run(s, actions, t) && AllHarmless(actions)
    ensures NothingCancelled(t)
    ensures HasGoneWrong(s, actions, k, so) <==> HasLate(s, actions, k, so)
    decreases |actions|
  {
    if actions != [] {
      StepKeepsInv(s, actions[0]);
      HarmlessStepKeepsNothingCancelled(s, actions[0]);
      HarmlessRunIsOnlyLate(Do(s, actions[0]), actions[1..], t, k, so || Late(s, actions[0], k));
    }
  }

  // Without cancellations, losses and failures there is one way left to fail: a CONFIGURING report
  // that its host has given up waiting for arrives after the host's SUCCESS.
  lemma {:induction false} HarmlessEndsDeployedExactly(s0: Cluster, actions: seq<Action>, s: Cluster, k: JobKey)
    requires Initial(s0) && Run(s0, actions, s) && AllHarmless(actions) && AtRest(s) && k in s.store.jobs
    ensures s.store.jobs[k].status == Deployed <==> Able(s, k) && !HasLate(s0, actions, k, false)
  {
    InitialInv(s0);
    HarmlessRunIsOnlyLate(s0, actions, s, k, false);
    EndsDeployedExactly(s0, actions, s, k);
  }

  // --- Publishers that wait. ---

  // A host does not begin to configure while its CONFIGURING report is in flight.
  predicate Patient(s: Cluster, a: Action)
    requires Enabled(s, a)
  {
    a.Proceeds? ==> s.nodes[a.host].tasks[a.key].id !in s.flight
  }

  predicate FairRun(s: Cluster, actions: seq<Action>, t: Cluster)
    decreases |actions|
  {
    if actions == [] then s == t
    else
      && Enabled(s, actions[0]) && Harmless(actions[0]) && Patient(s, actions[0])
      && FairRun(Do(s, actions[0]), actions[1..], t)
  }

  // A report that is not a SUCCESS has its task waiting for it.
  ghost predicate AwaitedReport(s: Cluster, id: nat)
    requires id in s.flight
  {
    var c := s.flight[id];
    c.ConfigurationUpdate? && c.configuration != ConfigurationSuccess ==>
      c.host in s.nodes && c.key in s.nodes[c.host].tasks && s.nodes[c.host].tasks[c.key] == Announcing(id)
  }

  ghost predicate Awaited(s: Cluster) {
    forall id {:trigger AwaitedReport(s, id)} :: id in s.flight ==> AwaitedReport(s, id)
  }

  lemma HandlingKeepsTasks(s: Cluster, t: Cluster, g: Host, h: Host, k: JobKey)
    requires Enabled(s, Handles(g)) && t == DoHandle(s, g) && h in s.nodes && k in s.nodes[h].tasks
    ensures h in t.nodes && k in t.nodes[h].tasks && t.nodes[h].tasks[k] == s.nodes[h].tasks[k]
  {
  }

  lemma OthersKeepTask(s: Cluster, t: Cluster, a: Action, h: Host, k: JobKey)
    requires Enabled(s, a) && h in s.nodes && k in s.nodes[h].tasks && s.nodes[h].tasks[k].Announcing? && t == Do(s, a)
    requires a != Proceeds(h, k) && !a.Handles?
    ensures h in t.nodes && k in t.nodes[h].tasks && t.nodes[h].tasks[k] == s.nodes[h].tasks[k]
  {
  }

  lemma TaskGoesOnWaiting(s: Cluster, t: Cluster, a: Action, h: Host, k: JobKey)
    requires Enabled(s, a) && h in s.nodes && k in s.nodes[h].tasks && s.nodes[h].tasks[k].Announcing? && t == Do(s, a)
    requires a != Proceeds(h, k)
    ensures h in t.nodes && k in t.nodes[h].tasks && t.nodes[h].tasks[k] == s.nodes[h].tasks[k]
  {
    if a.Handles? { HandlingKeepsTasks(s, t, a.host, h, k); } else { OthersKeepTask(s, t, a, h, k); }
  }

  lemma NewReportIsAwaited(s: Cluster, t: Cluster, a: Action, id: nat)
    requires Enabled(s, a) && Harmless(a) && t == Do(s, a) && id in t.flight && id !in s.flight
    ensures AwaitedReport(t, id)
  {
  }

  lemma FairStepKeepsAwaited(s: Cluster, t: Cluster, a: Action)
    requires Inv(s) && Awaited(s) && Enabled(s, a) && Harmless(a) && Patient(s, a) && t == Do(s, a)
    ensures Awaited(t)
  {
    forall id | id in t.flight ensures AwaitedReport(t, id) {
      if id in s.flight {
        StepTalks(s, t, a);
        var c := s.flight[id];
        assert AwaitedReport(s, id) && t.flight[id] == c;
        if c.ConfigurationUpdate? && c.configuration != ConfigurationSuccess {
          TaskGoesOnWaiting(s, t, a, c.host, c.key);
        }
      } else {
        NewReportIsAwaited(s, t, a, id);
      }
    }
  }

  // A host whose task waits for its CONFIGURING report has not been SUCCESS.
  lemma AnnouncingIsNotSuccess(s: Cluster, id: nat)
    requires Inv(s) && id in s.flight && AwaitedReport(s, id)
    requires s.flight[id].ConfigurationUpdate? && s.flight[id].configuration != ConfigurationSuccess
    requires s.flight[id].key in s.past && s.flight[id].host in s.store.jobs[s.flight[id].key].configuration
    ensures s.store.jobs[s.flight[id].key].configuration[s.flight[id].host] != ConfigurationSuccess
  {
    var k, h := s.flight[id].key, s.flight[id].host;
    assert ConfiguredOk(s, k, h) && BarrierOk(s.store.jobs[k], s.past[k]);
  }

  lemma AwaitedIsNotLate(s: Cluster, a: Action, k: JobKey)
    requires Inv(s) && Awaited(s) && Enabled(s, a)
    ensures !Late(s, a, k)
  {
    if a.Commits? && k in s.past {
      var c := s.flight[a.id];
      if c.ConfigurationUpdate? && c.key == k && c.configuration != ConfigurationSuccess {
        assert AwaitedReport(s, a.id);
        if c.host in s.store.jobs[k].configuration { AnnouncingIsNotSuccess(s, a.id); }
      }
    }
  }

  lemma {:induction false} FairRunIsNotLate(s: Cluster, actions: seq<Action>, t: Cluster, k: JobKey)
    requires Inv(s) && Awaited(s) && FairRun(s, actions, t)
    ensures Run(s, actions, t) && AllHarmless(actions) && !HasLate(s, actions, k, false)
    decreases |actions|
  {
    if actions != [] {
      var next := Do(s, actions[0]);
      StepKeepsInv(s, actions[0]);
      FairStepKeepsAwaited(s, next, actions[0]);
      AwaitedIsNotLate(s, actions[0], k);
      FairRunIsNotLate(next, actions[1..], t, k);
    }
  }

  // So where publishers wait besides, every job that its hosts can carry out ends DEPLOYED, and
  // with distinct hosts it has restarted them all in order.
  lemma {:induction false} MaximalFairRunDeploys(s0: Cluster, actions: seq<Action>, s: Cluster, k: JobKey)
    requires Initial(s0) && FairRun(s0, actions, s) && AtRest(s) && k in s.store.jobs
    ensures s.store.jobs[k].status == Deployed <==> Able(s, k)
    ensures Able(s, k) ==> k in s.past && s.past[k].finished <= s.store.jobs[k].order
    ensures Able(s, k) && Distinct(s.store.jobs[k].order) ==> s.past[k].finished == s.store.jobs[k].order
  {
    InitialInv(s0);
    FairRunIsNotLate(s0, actions, s, k);
    HarmlessEndsDeployedExactly(s0, actions, s, k);
    assert Reachable(s);
    InOrder(s, k);
    if Able(s, k) { DeployedRestartedEveryHost(s, k); }
  }

  // --- Coming to rest. ---

  ghost predicate NothingSubmitted(s: Cluster) {
    forall id :: id in s.flight ==> !s.flight[id].SubmitJob?
  }

  // The same step, done well.
  function AtBest(a: Action): Action {
    match a
    case Loses(id) => Commits(id)
    case Finishes(h, _) => Finishes(h, Succeeded)
    case Reports(h, k, _) => Reports(h, k, Succeeded)
    case _ => a
  }

  lemma AtBestIsInternal(s: Cluster, a: Action)
    requires NothingSubmitted(s) && Enabled(s, a) && !a.Submits? && !a.Cancels?
    ensures Internal(s, AtBest(a)) && Harmless(AtBest(a)) && NothingSubmitted(Do(s, AtBest(a)))
  {
  }

  lemma {:induction false} HostsComeToRest(s: Cluster, hosts: seq<Host>, keys: seq<JobKey>)
    returns (actions: seq<Action>, t: Cluster)
    requires Inv(s) && Lists(s, hosts, keys) && NothingSubmitted(s)
    ensures Run(s, actions, t) && AllHarmless(actions) && AtRest(t)
    decreases Measure(s, hosts, keys)
  {
    if AtRest(s) {
      actions, t := [], s;
    } else {
      var any :| Enabled(s, any) && !any.Submits? && !any.Cancels?;
      var a := AtBest(any);
      AtBestIsInternal(s, any);
      StepKeepsInv(s, a);
      InternalStepLowersMeasure(s, Do(s, a), a, hosts, keys);
      InternalStepKeepsLists(s, Do(s, a), a, hosts, keys);
      MeasureIsNotNegative(s, hosts, keys);
      var rest;
      rest, t := HostsComeToRest(Do(s, a), hosts, keys);
      actions := [a] + rest;
    }
  }

  // From every reachable state the system can come to rest without the users doing anything, and
  // without a loss or a failure.
  lemma {:induction false} CanComeToRest(s: Cluster) returns (actions: seq<Action>, t: Cluster)
    requires Reachable(s)
    ensures Run(s, actions, t) && AllHarmless(actions) && AtRest(t)
  {
    ReachableInv(s);
    actions, t := ComesToRest(s);
  }

  lemma {:induction false} ComesToRest(s: Cluster) returns (actions: seq<Action>, t: Cluster)
    requires Inv(s)
    ensures Run(s, actions, t) && AllHarmless(actions) && AtRest(t)
    decreases |s.flight|
  {
    if NothingSubmitted(s) {
      actions, t := HostsComeToRest(s, Listing(s.nodes.Keys), Listing(s.past.Keys));
    } else {
      var id :| id in s.flight && s.flight[id].SubmitJob?;
      StepKeepsInv(s, Commits(id));
      FlightShrinks(s.flight, id);
      var rest;
      rest, t := ComesToRest(DoCommit(s, id));
      actions := [Commits(id)] + rest;
    }
  }
}
