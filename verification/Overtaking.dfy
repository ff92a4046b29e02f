/**
 A run without a cancellation, a loss or a failure whose job never gets to its restarts.
 */
module Overtaking {
  import opened Entities
  import opened RaftApp
  import opened RaftAppInvariants
  import opened Controller
  import opened Cluster
  import opened ClusterInvariant
  import opened ClusterCommit
  import opened ClusterTheorems
  import opened Completion
  import opened Drive
  import opened Fate
  import opened Traffic

  // --- What a late report does. ---

  // Who makes a job that is not configured late has another host to wait for; so a job of one host
  // is never late.
  lemma LateNeedsAnotherHost(s0: Cluster, actions: seq<Action>, s: Cluster, a: Action, k: JobKey)
    requires Initial(s0) && Run(s0, actions, s) && Enabled(s, a) && Late(s, a, k) && s.store.jobs[k].status == Queued
    ensures exists h :: h in s.store.jobs[k].configuration && h != s.flight[a.id].host &&
                        s.store.jobs[k].configuration[h] != ConfigurationSuccess
  {
    InitialInv(s0);
    RunDecides(s0, actions, s, k);
    JobIsKnown(s, k);
  }

  lemma OnlyCommitsOpenBarrier(s: Cluster, t: Cluster, a: Action, k: JobKey)
    requires Inv(s) && Enabled(s, a) && !a.Commits? && t == Do(s, a)
    requires k in s.past && s.past[k].token == AtBarrier
    ensures k in t.past && t.past[k].token == AtBarrier
  {
    if Passes(a) {
      PassingIsApart(s, t, a, k);
    } else if a.Finishes? {
      assert ConsumerToken(s, a.host);
    }
  }

  lemma ReportKeepsBarred(s: Cluster, t: Cluster, id: nat, k: JobKey)
    requires Inv(s) && id in s.flight && s.flight[id].ConfigurationUpdate? && s.flight[id].key == k
    requires t == DoCommit(s, id) && k in s.past && s.past[k].token == AtBarrier && Hopeless(t, k)
    ensures t.past[k].token == AtBarrier
  {
    var h, status := s.flight[id].host, s.flight[id].configuration;
    assert ReportOk(s, id) && TaskOk(s, h, k);
    JobIsKnown(s, k);
    ReportIsNoted(s, t, id, k, h, status);
  }

  lemma CommitKeepsBarred(s: Cluster, t: Cluster, id: nat, k: JobKey)
    requires Inv(s) && id in s.flight && t == DoCommit(s, id)
    requires k in s.past && s.past[k].token == AtBarrier && Hopeless(t, k)
    ensures k in t.past && t.past[k].token == AtBarrier
  {
    var c := s.flight[id];
    assert FlightToken(s, id);
    CommitIsCommitted(s, t, id);
    if k == Subject(s.store, c) {
      if c.SubmitJob? { NextKeyIsNew(s.store, c.request); }
      if c.ConfigurationUpdate? { ReportKeepsBarred(s, t, id, k); }
    }
  }

  // A job that cannot get past its barrier any more.
  ghost predicate Barred(s: Cluster, k: JobKey) {
    Inv(s) && SoundAt(s, k) && Hopeless(s, k) && s.past[k].token == AtBarrier
  }

  lemma StepKeepsBarred(s: Cluster, t: Cluster, a: Action, k: JobKey)
    requires Barred(s, k) && Enabled(s, a) && t == Do(s, a)
    ensures Barred(t, k)
  {
    StepKeepsInv(s, a);
    StepDecides(s, t, a, k);
    if a.Commits? {
      CommitKeepsBarred(s, t, a.id, k);
    } else {
      OnlyCommitsOpenBarrier(s, t, a, k);
    }
  }

  // Once a host of a job is blocked at the barrier, the barrier stays down for the rest of every
  // run: the job is QUEUED or CANCELLED, and none of its hosts ever starts.
  lemma {:induction false} BarredForever(s: Cluster, actions: seq<Action>, t: Cluster, k: JobKey)
    requires Barred(s, k) && Run(s, actions, t)
    ensures Barred(t, k) && t.past[k].started == []
    ensures t.store.jobs[k].status == Queued || t.store.jobs[k].status == Cancelled
    decreases |actions|
  {
    if actions == [] {
      JobIsKnown(s, k);
    } else {
      StepKeepsBarred(s, Do(s, actions[0]), actions[0], k);
      BarredForever(Do(s, actions[0]), actions[1..], t, k);
    }
  }

  // --- The run: a host gives up waiting for its CONFIGURING report, which then comes after SUCCESS. ---

  // A run without any harm, and whether it has been late for job k.
  ghost predicate Path(s0: Cluster, actions: seq<Action>, s: Cluster, k: JobKey, late: bool) {
    Run(s0, actions, s) && AllHarmless(actions) && HasLate(s0, actions, k, false) == late
  }

  lemma {:induction false} LateExtends(s: Cluster, actions: seq<Action>, m: Cluster, a: Action, k: JobKey, so: bool)
    requires Run(s, actions, m) && Enabled(m, a)
    ensures HasLate(s, actions + [a], k, so) <==> HasLate(s, actions, k, so) || Late(m, a, k)
    decreases |actions|
  {
    if actions == [] {
      assert (actions + [a])[1..] == [];
    } else {
      LateExtends(Do(s, actions[0]), actions[1..], m, a, k, so || Late(s, actions[0], k));
      assert (actions + [a])[1..] == actions[1..] + [a];
    }
  }

  lemma Onward(s0: Cluster, actions: seq<Action>, s: Cluster, k: JobKey, late: bool, a: Action)
    returns (longer: seq<Action>)
    requires Path(s0, actions, s, k, late) && Enabled(s, a) && Harmless(a)
    ensures Path(s0, longer, Do(s, a), k, late || Late(s, a, k))
  {
    longer := actions + [a];
    RunExtends(s0, actions, s, a);
    LateExtends(s0, actions, s, a, k, false);
  }

  lemma {:induction false} OnwardAll(s0: Cluster, actions: seq<Action>, s: Cluster, k: JobKey,
      more: seq<Action>, t: Cluster) returns (longer: seq<Action>)
    requires Path(s0, actions, s, k, true) && Run(s, more, t) && AllHarmless(more)
    ensures Path(s0, longer, t, k, true)
    decreases |more|
  {
    if more == [] {
      longer := actions;
    } else {
      longer := Onward(s0, actions, s, k, true, more[0]);
      longer := OnwardAll(s0, longer, Do(s, more[0]), k, more[1..], t);
    }
  }

  // A submission for two hosts, in believe mode.
  function Pair(ns: string, service: string, a: Host, b: Host): SubmitRequest {
    SubmitRequest(ns, ns, service, [Target(a, 0), Target(b, 1)], true)
  }

  // Job k waits for two hosts, of which a has got to `status` and b has not begun.
  ghost predicate HasPair(s: Cluster, k: JobKey, a: Host, b: Host, status: ConfigurationStatus) {
    && k in s.store.jobs && s.store.jobs[k].key == k && s.store.jobs[k].believe
    && s.store.jobs[k].order == [a, b] && s.store.jobs[k].status == Queued
    && s.store.jobs[k].configuration == map[a := status, b := ConfigurationPending]
    && a in s.nodes && b in s.nodes && a != b
  }

  lemma PairSubmitted(s0: Cluster, a: Host, b: Host, ns: string, service: string)
    returns (actions: seq<Action>, s: Cluster, k: JobKey)
    requires Initial(s0) && a in s0.nodes && b in s0.nodes && a != b
    requires ServiceKey(ns, service) !in s0.store.instances
    ensures k.ns == ns && k.service == service
    ensures Path(s0, actions, s, k, false) && HasPair(s, k, a, b, ConfigurationPending)
    ensures s.nodes == s0.nodes && s.events == [JobCreated(s.store.jobs[k])] && s.marks == [0, 1] && |s.log| == 1
  {
    var r := Pair(ns, service, a, b);
    k := NextKey(s0.store, r);
    var m := Do(s0, Submits(r));
    actions := Onward(s0, [], s0, k, false, Submits(r));
    actions := Onward(s0, actions, m, k, false, Commits(s0.next));
    s := Do(m, Commits(s0.next));
    PairCreated(s0, m, s, a, b, r, k);
  }

  lemma PairCreated(s0: Cluster, m: Cluster, s: Cluster, a: Host, b: Host, r: SubmitRequest, k: JobKey)
    requires Initial(s0) && a in s0.nodes && b in s0.nodes && a != b
    requires r == Pair(r.ns, r.service, a, b) && ServiceKey(r.ns, r.service) !in s0.store.instances
    requires m == Send(s0, SubmitJob(r)) && s == DoCommit(m, s0.next) && k == NextKey(s0.store, r)
    ensures HasPair(s, k, a, b, ConfigurationPending)
    ensures s.nodes == s0.nodes && s.events == [JobCreated(s.store.jobs[k])] && s.marks == [0, 1] && |s.log| == 1
  {
    assert TargetHosts(r.targets) == [a, b] && ReplicaIds(r.targets) == [0, 1];
    assert EachHost([a, b], ConfigurationPending) == map[a := ConfigurationPending, b := ConfigurationPending];
  }

  // Host a takes the job,
  lemma PairTaken(s0: Cluster, before: seq<Action>, s: Cluster, k: JobKey, a: Host, b: Host)
    returns (actions: seq<Action>, t: Cluster)
    requires Path(s0, before, s, k, false) && HasPair(s, k, a, b, ConfigurationPending)
    requires s.nodes[a] == Node(0, 0, map[], Idle)
    requires s.events == [JobCreated(s.store.jobs[k])] && s.marks == [0, 1] && |s.log| == 1
    ensures Path(s0, actions, t, k, false) && HasPair(t, k, a, b, ConfigurationPending)
    ensures k in t.nodes[a].tasks && t.nodes[a].tasks[k] == Spawned
  {
    actions := Onward(s0, before, s, k, false, Applies(a));
    var m := DoApply(s, a);
    actions := Onward(s0, actions, m, k, false, Handles(a));
    t := DoHandle(m, a);
  }

  lemma ReportFollows(s: Cluster, n: Cluster, a: Host, k: JobKey)
    requires a in s.nodes && a in n.nodes && n.next == s.next + 1
    requires InFlight(n, s.next, ConfigurationUpdate(k, a, ConfigurationRunning))
    ensures var t := DoReport(n, a, k, Succeeded);
            && InFlight(t, s.next, ConfigurationUpdate(k, a, ConfigurationRunning))
            && InFlight(t, s.next + 1, ConfigurationUpdate(k, a, ConfigurationSuccess))
            && t.store == n.store && t.nodes.Keys == n.nodes.Keys
  {
  }

  // does its work, with both reports still in flight,
  lemma PairWorked(s0: Cluster, before: seq<Action>, s: Cluster, k: JobKey, a: Host, b: Host)
    returns (actions: seq<Action>, t: Cluster)
    requires Path(s0, before, s, k, false) && HasPair(s, k, a, b, ConfigurationPending)
    requires k in s.nodes[a].tasks && s.nodes[a].tasks[k] == Spawned
    ensures Path(s0, actions, t, k, false) && HasPair(t, k, a, b, ConfigurationPending)
    ensures InFlight(t, s.next, ConfigurationUpdate(k, a, ConfigurationRunning))
    ensures InFlight(t, s.next + 1, ConfigurationUpdate(k, a, ConfigurationSuccess))
  {
    actions := Onward(s0, before, s, k, false, Announces(a, k));
    var m := DoAnnounce(s, a, k);
    actions := Onward(s0, actions, m, k, false, Proceeds(a, k));
    var n := DoProceed(m, a, k);
    actions := Onward(s0, actions, n, k, false, Reports(a, k, Succeeded));
    t := DoReport(n, a, k, Succeeded);
    ReportFollows(s, n, a, k);
  }

  // and the reports are applied in the wrong order.
  lemma PairOvertaken(s0: Cluster, before: seq<Action>, s: Cluster, k: JobKey, a: Host, b: Host, id: nat)
    returns (actions: seq<Action>, t: Cluster)
    requires Path(s0, before, s, k, false) && HasPair(s, k, a, b, ConfigurationPending)
    requires InFlight(s, id, ConfigurationUpdate(k, a, ConfigurationRunning))
    requires InFlight(s, id + 1, ConfigurationUpdate(k, a, ConfigurationSuccess))
    ensures Path(s0, actions, t, k, true) && HasPair(t, k, a, b, ConfigurationRunning)
  {
    actions := Onward(s0, before, s, k, false, Commits(id + 1));
    var m := DoCommit(s, id + 1);
    SuccessIsNoted(s.store, k, a, b);
    actions := Onward(s0, actions, m, k, false, Commits(id));
    t := DoCommit(m, id);
    RunningIsNoted(m.store, k, a, b);
  }

  lemma SuccessIsNoted(store: Store, k: JobKey, a: Host, b: Host)
    requires a != b && k in store.jobs && store.jobs[k].key == k
    requires store.jobs[k].configuration == map[a := ConfigurationPending, b := ConfigurationPending]
    ensures UpdateConfiguration(store, k, a, ConfigurationSuccess).store.jobs[k] == store.jobs[k].(
              configuration := map[a := ConfigurationSuccess, b := ConfigurationPending])
  {
    var after := store.jobs[k].configuration[a := ConfigurationSuccess];
    assert after[b] == ConfigurationPending;
  }

  lemma RunningIsNoted(store: Store, k: JobKey, a: Host, b: Host)
    requires a != b && k in store.jobs && store.jobs[k].key == k
    requires store.jobs[k].configuration == map[a := ConfigurationSuccess, b := ConfigurationPending]
    ensures UpdateConfiguration(store, k, a, ConfigurationRunning).store.jobs[k] == store.jobs[k].(
              configuration := map[a := ConfigurationRunning, b := ConfigurationPending])
  {
    var after := store.jobs[k].configuration[a := ConfigurationRunning];
    assert after[b] == ConfigurationPending;
  }

  lemma PairIsLate(s0: Cluster, a: Host, b: Host, ns: string, service: string)
    returns (actions: seq<Action>, s: Cluster, k: JobKey)
    requires Initial(s0) && a in s0.nodes && b in s0.nodes && a != b
    requires ServiceKey(ns, service) !in s0.store.instances
    ensures Path(s0, actions, s, k, true) && HasPair(s, k, a, b, ConfigurationRunning)
    ensures k.ns == ns && k.service == service
  {
    var m, n: Cluster;
    actions, s, k := PairSubmitted(s0, a, b, ns, service);
    actions, m := PairTaken(s0, actions, s, k, a, b);
    actions, n := PairWorked(s0, actions, m, k, a, b);
    actions, s := PairOvertaken(s0, actions, n, k, a, b, m.next);
  }

  lemma {:induction false} RunKeepsAble(s: Cluster, actions: seq<Action>, t: Cluster, k: JobKey)
    requires Inv(s) && Run(s, actions, t) && Able(s, k)
    ensures Able(t, k)
    decreases |actions|
  {
    if actions != [] {
      var next := Do(s, actions[0]);
      StepKeepsInv(s, actions[0]);
      StepKeepsNodes(s, next, actions[0]);
      StepPays(s, next, actions[0], k);
      RunKeepsAble(next, actions[1..], t, k);
    }
  }

  lemma LatePairIsBarred(s0: Cluster, actions: seq<Action>, s: Cluster, k: JobKey, a: Host, b: Host)
    requires Initial(s0) && Path(s0, actions, s, k, true) && HasPair(s, k, a, b, ConfigurationRunning)
    ensures Barred(s, k) && Able(s, k)
  {
    InitialInv(s0);
    RunDecides(s0, actions, s, k);
    HarmlessRunIsOnlyLate(s0, actions, s, k, false);
  }

  // For any two hosts and any service without instances, there is a run without a cancellation, a
  // loss or a failure at whose end nobody has anything left to do, and an able job is still QUEUED.
  // It will never be anything else, whatever happens afterwards, except CANCELLED.
  lemma {:induction false} LateReportStalls(s0: Cluster, a: Host, b: Host, ns: string, service: string)
    returns (actions: seq<Action>, t: Cluster, k: JobKey)
    requires Initial(s0) && a in s0.nodes && b in s0.nodes && a != b
    requires ServiceKey(ns, service) !in s0.store.instances
    ensures Run(s0, actions, t) && AllHarmless(actions) && AtRest(t)
    ensures Able(t, k) && k.ns == ns && k.service == service && t.store.jobs[k].status == Queued
    ensures forall more, u :: Run(t, more, u) ==>
              k in u.store.jobs && (u.store.jobs[k].status == Queued || u.store.jobs[k].status == Cancelled)
  {
    InitialInv(s0);
    var s: Cluster, rest: seq<Action>;
    actions, s, k := PairIsLate(s0, a, b, ns, service);
    LatePairIsBarred(s0, actions, s, k, a, b);
    rest, t := ComesToRest(s);
    actions := OnwardAll(s0, actions, s, k, rest, t);
    RunKeepsAble(s, rest, t, k);
    BarredForever(s, rest, t, k);
    HarmlessRunIsOnlyLate(s0, actions, t, k, false);
    forall more, u | Run(t, more, u)
      ensures k in u.store.jobs && (u.store.jobs[k].status == Queued || u.store.jobs[k].status == Cancelled)
    {
      BarredForever(t, more, u, k);
    }
  }
}
