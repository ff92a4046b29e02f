/**
 Three more invariants of every run: the queues really are what the replicas broadcast, the barrier
 is announced once, and the string-keyed pool of the program decides as the model does.
 */
module ClusterHistory {
  import opened Entities
  import opened RaftApp
  import opened RaftAppInvariants
  import opened Controller
  import opened Cluster
  import opened ClusterInvariant
  import opened ClusterCommit
  import opened ClusterTheorems

  // A consumer only moves by handling.
  lemma OnlyHandlingTakes(s: Cluster, t: Cluster, a: Action, h: Host)
    requires Enabled(s, a) && t == Do(s, a) && h in s.nodes && h in t.nodes && a != Handles(h)
    ensures t.nodes[h].handled == s.nodes[h].handled && t.nodes[h].tasks.Keys == s.nodes[h].tasks.Keys
  {
  }

  // Events are only ever added.
  lemma EventsStay(s: Cluster, t: Cluster, a: Action)
    requires Enabled(s, a) && t == Do(s, a)
    ensures s.events <= t.events && (!a.Commits? ==> t.events == s.events)
  {
    if !a.Commits? { OnlyCommitsDecide(s, t, a); }
  }

  // --- Replicas and queues. ---

  ghost predicate MarkOk(start: Store, s: Cluster, i: nat)
    requires i <= |s.log|
  {
    i < |s.marks| && s.marks[i] <= |s.events| && Replay(start, s.log[..i]).events == s.events[..s.marks[i]]
  }

  ghost predicate Replayed(start: Store, s: Cluster) {
    && s.store == Replay(start, s.log).store
    && s.events == Replay(start, s.log).events
    && |s.marks| == |s.log| + 1
    && forall i {:trigger MarkOk(start, s, i)} :: 0 <= i <= |s.log| ==> MarkOk(start, s, i)
  }

  lemma CommitKeepsReplayed(start: Store, s: Cluster, t: Cluster, c: Command)
    requires Replayed(start, s)
    requires t.log == s.log + [c] && t.store == Apply(s.store, c).store &&
             t.events == s.events + Apply(s.store, c).events
    requires t.marks == s.marks + [|t.events|]
    ensures Replayed(start, t)
  {
    assert t.log[..|s.log|] == s.log;
    forall i: nat | i <= |t.log| ensures MarkOk(start, t, i) {
      if i <= |s.log| {
        assert MarkOk(start, s, i);
        assert t.log[..i] == s.log[..i] && t.events[..t.marks[i]] == s.events[..s.marks[i]];
      } else {
        assert t.log[..i] == t.log && t.events[..t.marks[i]] == t.events;
      }
    }
  }

  lemma StepKeepsReplayed(start: Store, s: Cluster, t: Cluster, a: Action)
    requires Replayed(start, s) && Enabled(s, a) && t == Do(s, a)
    ensures Replayed(start, t)
  {
    if a.Commits? {
      CommitKeepsReplayed(start, s, t, s.flight[a.id]);
    } else {
      OnlyCommitsDecide(s, t, a);
      forall i: nat | i <= |t.log| ensures MarkOk(start, t, i) { assert MarkOk(start, s, i); }
    }
  }

  lemma {:induction false} RunKeepsReplayed(start: Store, s: Cluster, actions: seq<Action>, t: Cluster)
    requires Replayed(start, s) && Run(s, actions, t)
    ensures Replayed(start, t)
    decreases |actions|
  {
    if actions != [] {
      StepKeepsReplayed(start, s, Do(s, actions[0]), actions[0]);
      RunKeepsReplayed(start, Do(s, actions[0]), actions[1..], t);
    }
  }

  // The replica of a host that has applied n entries of the log has broadcast exactly the events
  // up to its mark; its consumer has taken a prefix of them, in order.
  lemma {:induction false} QueueIsWhatTheReplicaBroadcast(s0: Cluster, actions: seq<Action>, s: Cluster, h: Host)
    requires Initial(s0) && Run(s0, actions, s) && h in s.nodes
    ensures var n := s.nodes[h];
            && n.applied <= |s.log| < |s.marks|
            && n.handled <= s.marks[n.applied] <= |s.events|
            && Replay(s0.store, s.log[..n.applied]).events == s.events[..s.marks[n.applied]]
            && Replay(s0.store, s.log) == Replica(s.store, s.events)
  {
    InitialInv(s0);
    RunKeepsInv(s0, actions, s);
    assert MarkOk(s0.store, s0, 0);
    RunKeepsReplayed(s0.store, s0, actions, s);
    QueuesAreBehind(s, h);
    assert MarkOk(s0.store, s, s.nodes[h].applied);
  }

  // --- The barrier is announced once. ---

  ghost predicate PassedAt(s: Cluster, e: nat)
    requires e < |s.events|
  {
    s.events[e].AllHostConfigured? ==>
      && s.events[e].job.key in s.past && s.past[s.events[e].job.key].token != AtBarrier
      && forall d :: 0 <= d < e && s.events[d].AllHostConfigured? ==> s.events[d].job.key != s.events[e].job.key
  }

  ghost predicate AnnouncedOnce(s: Cluster) {
    forall e {:trigger PassedAt(s, e)} :: 0 <= e < |s.events| ==> PassedAt(s, e)
  }

  lemma NoReturnByHost(s: Cluster, t: Cluster, a: Action, k: JobKey)
    requires Enabled(s, a) && !a.Commits? && t == Do(s, a) && k in s.past && s.past[k].token != AtBarrier
    ensures k in t.past && t.past[k].token != AtBarrier
  {
  }

  lemma NoReturnByCommit(s: Cluster, t: Cluster, id: nat, k: JobKey)
    requires id in s.flight && t == DoCommit(s, id) && k in s.past && s.past[k].token != AtBarrier
    requires s.flight[id].SubmitJob? ==> NextKey(s.store, s.flight[id].request) != k
    ensures k in t.past && t.past[k].token != AtBarrier
  {
  }

  lemma NoReturnToBarrier(s: Cluster, t: Cluster, a: Action, k: JobKey)
    requires Inv(s) && Enabled(s, a) && t == Do(s, a) && k in s.past && s.past[k].token != AtBarrier
    ensures k in t.past && t.past[k].token != AtBarrier
  {
    if a.Commits? {
      if s.flight[a.id].SubmitJob? { NextKeyIsNew(s.store, s.flight[a.id].request); }
      NoReturnByCommit(s, t, a.id, k);
    } else {
      NoReturnByHost(s, t, a, k);
    }
  }

  lemma OnlyReportsAnnounce(s: Cluster, t: Cluster, id: nat, e: nat)
    requires Filed(s.store) && id in s.flight && t == DoCommit(s, id)
    requires |s.events| <= e < |t.events| && t.events[e].AllHostConfigured?
    ensures var c := s.flight[id];
            && c.ConfigurationUpdate? && c.key in s.store.jobs
            && AllConfigured(s.store.jobs[c.key].configuration[c.host := c.configuration])
            && t.events[e].job.key == c.key
            && (c.key in s.past ==> c.key in t.past && t.past[c.key].token != AtBarrier)
            && e == |s.events| + 1 && !t.events[|s.events|].AllHostConfigured?
  {
  }

  lemma CommitAnnouncesAtBarrier(s: Cluster, t: Cluster, id: nat, e: nat)
    requires Inv(s) && id in s.flight && t == DoCommit(s, id)
    requires |s.events| <= e < |t.events| && t.events[e].AllHostConfigured?
    ensures e == |s.events| + 1 && !t.events[|s.events|].AllHostConfigured?
    ensures var k := t.events[e].job.key;
            k in s.past && s.past[k].token == AtBarrier && k in t.past && t.past[k].token != AtBarrier
  {
    OnlyReportsAnnounce(s, t, id, e);
    var c := s.flight[id];
    assert ReportOk(s, id) && TaskOk(s, c.host, c.key);
    JobIsKnown(s, c.key);
    QueuesAreBehind(s, c.host);
    AllConfiguredAfter(s.store.jobs[c.key].configuration, c.host, c.configuration);
    SuccessFindsBarrier(s, id, c.key, c.host);
  }

  // A first announcement: the job was at the barrier, so no earlier event announces it.
  lemma NewAnnouncement(s: Cluster, t: Cluster, e: nat)
    requires AnnouncedOnce(s) && s.events <= t.events
    requires e == |s.events| + 1 < |t.events| && t.events[e].AllHostConfigured? &&
             !t.events[|s.events|].AllHostConfigured?
    requires var k := t.events[e].job.key;
             k in s.past && s.past[k].token == AtBarrier && k in t.past && t.past[k].token != AtBarrier
    ensures PassedAt(t, e)
  {
    forall d: nat | d < e && t.events[d].AllHostConfigured? ensures t.events[d].job.key != t.events[e].job.key {
      assert t.events[d] == s.events[d] && PassedAt(s, d);
    }
  }

  lemma StepKeepsAnnouncedOnce(s: Cluster, t: Cluster, a: Action)
    requires Inv(s) && AnnouncedOnce(s) && Enabled(s, a) && t == Do(s, a)
    ensures AnnouncedOnce(t)
  {
    EventsStay(s, t, a);
    forall e: nat | e < |t.events| && t.events[e].AllHostConfigured? ensures PassedAt(t, e) {
      if e < |s.events| {
        assert PassedAt(s, e);
        NoReturnToBarrier(s, t, a, t.events[e].job.key);
      } else {
        CommitAnnouncesAtBarrier(s, t, a.id, e);
        NewAnnouncement(s, t, e);
      }
    }
  }

  lemma {:induction false} RunKeepsAnnouncedOnce(s: Cluster, actions: seq<Action>, t: Cluster)
    requires Inv(s) && AnnouncedOnce(s) && Run(s, actions, t)
    ensures AnnouncedOnce(t)
    decreases |actions|
  {
    if actions != [] {
      StepKeepsInv(s, actions[0]);
      StepKeepsAnnouncedOnce(s, Do(s, actions[0]), actions[0]);
      RunKeepsAnnouncedOnce(Do(s, actions[0]), actions[1..], t);
    }
  }

  lemma BarrierAnnouncedOnce(s: Cluster, d: nat, e: nat)
    requires Reachable(s) && d < |s.events| && e < |s.events|
    requires s.events[d].AllHostConfigured? && s.events[e].AllHostConfigured?
    requires s.events[d].job.key == s.events[e].job.key
    ensures d == e
  {
    var s0: Cluster, actions: seq<Action> :| Initial(s0) && Run(s0, actions, s);
    InitialInv(s0);
    RunKeepsAnnouncedOnce(s0, actions, s);
    assert PassedAt(s, d) && PassedAt(s, e);
  }

  // --- The pool of the program. ---

  // Users submit under names without a backslash.
  predicate CleanAction(a: Action) {
    a.Submits? ==> CleanName(a.request.ns) && CleanName(a.request.service)
  }

  predicate CleanCommand(c: Command) {
    c.SubmitJob? ==> CleanName(c.request.ns) && CleanName(c.request.service)
  }

  ghost predicate PoolFaithful(s: Cluster, h: Host)
    requires h in s.nodes
  {
    && s.nodes[h].handled <= |s.events|
    && Represents(PoolFrom(h, s.events[..s.nodes[h].handled]), s.nodes[h].tasks.Keys)
  }

  ghost predicate Named(s: Cluster) {
    && (forall id :: id in s.flight ==> CleanCommand(s.flight[id]))
    && (forall k :: k in s.past ==> CleanKey(k))
  }

  ghost predicate PoolsFaithful(s: Cluster) {
    forall h {:trigger PoolFaithful(s, h)} :: h in s.nodes ==> PoolFaithful(s, h)
  }

  // What a step puts in flight, if it is a submission, is the user's.
  lemma StepKeepsCleanFlight(s: Cluster, t: Cluster, a: Action)
    requires Enabled(s, a) && CleanAction(a) && t == Do(s, a)
    requires forall id :: id in s.flight ==> CleanCommand(s.flight[id])
    ensures forall id :: id in t.flight ==> CleanCommand(t.flight[id])
  {
  }

  lemma StepKeepsNamed(s: Cluster, t: Cluster, a: Action)
    requires Inv(s) && Named(s) && Enabled(s, a) && CleanAction(a) && t == Do(s, a)
    ensures Named(t)
  {
    StepKeepsCleanFlight(s, t, a);
    forall k | k in t.past ensures CleanKey(k) {
      if k !in s.past { NewPastIsSubmitted(s, t, a, k); }
    }
  }

  lemma {:induction false} HandlesKeepsPoolFaithful(s: Cluster, t: Cluster, h: Host)
    requires Inv(s) && Named(s) && h in s.nodes && PoolFaithful(s, h)
    requires s.nodes[h].handled < |s.events| && t == DoHandle(s, h)
    ensures PoolFaithful(t, h)
    ensures React(PoolFrom(h, s.events[..s.nodes[h].handled]), h, s.events[s.nodes[h].handled]) == Answer(s, h)
  {
    var e := s.nodes[h].handled;
    assert SnapshotOk(s, e);
    PoolDecidesLikeKnown(PoolFrom(h, s.events[..e]), s.nodes[h].tasks.Keys, h, s.events[e]);
    TakesOne(s, t, h);
  }

  lemma TakesOne(s: Cluster, t: Cluster, h: Host)
    requires h in s.nodes && s.nodes[h].handled < |s.events| && t == DoHandle(s, h)
    ensures h in t.nodes && t.events == s.events && t.nodes[h].handled == s.nodes[h].handled + 1
    ensures t.nodes[h].tasks.Keys == KnownAfter(s.nodes[h].tasks.Keys, Answer(s, h))
    ensures t.events[..t.nodes[h].handled][..s.nodes[h].handled] == s.events[..s.nodes[h].handled]
  {
  }

  lemma SamePoolFaithful(s: Cluster, t: Cluster, h: Host)
    requires h in s.nodes && h in t.nodes && PoolFaithful(s, h)
    requires s.events <= t.events
    requires t.nodes[h].handled == s.nodes[h].handled && t.nodes[h].tasks.Keys == s.nodes[h].tasks.Keys
    ensures PoolFaithful(t, h)
  {
    assert t.events[..t.nodes[h].handled] == s.events[..s.nodes[h].handled];
  }

  lemma StepKeepsPoolsFaithful(s: Cluster, t: Cluster, a: Action)
    requires Inv(s) && Named(s) && PoolsFaithful(s) && Enabled(s, a) && t == Do(s, a)
    ensures PoolsFaithful(t)
  {
    EventsStay(s, t, a);
    StepKeepsNodes(s, t, a);
    forall h | h in t.nodes ensures PoolFaithful(t, h) {
      assert PoolFaithful(s, h);
      if a == Handles(h) {
        HandlesKeepsPoolFaithful(s, t, h);
      } else {
        OnlyHandlingTakes(s, t, a, h);
        SamePoolFaithful(s, t, h);
      }
    }
  }

  lemma {:induction false} RunKeepsPoolsFaithful(s: Cluster, actions: seq<Action>, t: Cluster)
    requires Inv(s) && Named(s) && PoolsFaithful(s) && Run(s, actions, t)
    requires forall a :: a in actions ==> CleanAction(a)
    ensures Inv(t) && Named(t) && PoolsFaithful(t)
    decreases |actions|
  {
    if actions != [] {
      StepKeepsInv(s, actions[0]);
      StepKeepsNamed(s, Do(s, actions[0]), actions[0]);
      StepKeepsPoolsFaithful(s, Do(s, actions[0]), actions[0]);
      RunKeepsPoolsFaithful(Do(s, actions[0]), actions[1..], t);
    }
  }

  // Over runs whose submissions use names without a backslash, the pool that the program has
  // built from the events it handled takes the decision that the model takes.
  lemma {:induction false} ProgramDecidesLikeModel(s0: Cluster, actions: seq<Action>, s: Cluster, h: Host)
    requires Initial(s0) && Run(s0, actions, s)
    requires forall a :: a in actions ==> CleanAction(a)
    requires h in s.nodes && s.nodes[h].handled < |s.events|
    ensures React(PoolFrom(h, s.events[..s.nodes[h].handled]), h, s.events[s.nodes[h].handled]) == Answer(s, h)
  {
    InitialInv(s0);
    forall g | g in s0.nodes ensures PoolFaithful(s0, g) {
      assert s0.events[..0] == [];
    }
    RunKeepsPoolsFaithful(s0, actions, s);
    assert PoolFaithful(s, h);
    HandlesKeepsPoolFaithful(s, DoHandle(s, h), h);
  }
}
