/**
 How much a job can make the hosts say.  A potential pays for every command that is still to come:
 two reports per host that has to configure, and a confirmation and two reports per restart.
 */
module Traffic {
  import opened Entities
  import opened RaftApp
  import opened RaftAppInvariants
  import opened Controller
  import opened Cluster
  import opened ClusterInvariant
  import opened ClusterSteps
  import opened ClusterCommit
  import opened ClusterTheorems

  // Commands that hosts publish about job k.
  predicate About(c: Command, k: JobKey) {
    !c.SubmitJob? && !c.CancelJob? && c.key == k
  }

  function Logged(log: seq<Command>, k: JobKey): nat {
    if log == [] then 0
    else Logged(log[..|log| - 1], k) + if About(log[|log| - 1], k) then 1 else 0
  }

  function Flying(flight: map<nat, Command>, k: JobKey): set<nat> {
    set id | id in flight && About(flight[id], k)
  }

  lemma FlyingGrows(flight: map<nat, Command>, id: nat, c: Command, k: JobKey)
    requires id !in flight
    ensures |Flying(flight[id := c], k)| == |Flying(flight, k)| + if About(c, k) then 1 else 0
  {
    if About(c, k) {
      assert Flying(flight[id := c], k) == Flying(flight, k) + {id};
    } else {
      assert Flying(flight[id := c], k) == Flying(flight, k);
    }
  }

  lemma FlyingShrinks(flight: map<nat, Command>, id: nat, k: JobKey)
    requires id in flight
    ensures |Flying(flight - {id}, k)| == |Flying(flight, k)| - if About(flight[id], k) then 1 else 0
  {
    assert Flying(flight - {id}, k) == Flying(flight, k) - {id};
  }

  // --- The potential. ---

  // What is counted: commands still to be published, or steps still to be made.
  datatype Unit = Commands | Steps

  // What the configuration task of host h may still do.
  function TaskLeft(u: Unit, nodes: map<Host, Node>, k: JobKey, h: Host): nat {
    if h in nodes && k in nodes[h].tasks then
      match nodes[h].tasks[k]
      case Spawned => if u.Commands? then 2 else 5
      case Announcing(_) => if u.Commands? then 1 else 3
      case Executing => if u.Commands? then 1 else 2
      case Reported(_) => 0
    else if u.Commands? then 2 else 5
  }

  function TasksLeft(u: Unit, nodes: map<Host, Node>, k: JobKey, hosts: seq<Host>): nat {
    if hosts == [] then 0 else TaskLeft(u, nodes, k, hosts[0]) + TasksLeft(u, nodes, k, hosts[1..])
  }

  // What the restarts may still do, with `rounds` of them not finished.
  function RoundsLeft(u: Unit, token: Token, rounds: int): int {
    match token
    case AtBarrier => if u.Commands? then 3 * rounds else 6 * rounds
    case Triggered(_) => if u.Commands? then 3 * rounds else 6 * rounds
    case Confirmation(_) => if u.Commands? then 3 * rounds - 1 else 6 * rounds - 2
    case Permission(_) => if u.Commands? then 3 * rounds - 1 else 6 * rounds - 2
    case Prepares(_) => if u.Commands? then 3 * rounds - 2 else 6 * rounds - 3
    case Runs(_) => if u.Commands? then 3 * rounds - 2 else 6 * rounds - 4
    case Judged(_) => if u.Commands? then 3 * rounds - 3 else 6 * rounds - 6
    case Spent => 0
  }

  function Potential(u: Unit, nodes: map<Host, Node>, job: Job, p: Past): int {
    TasksLeft(u, nodes, job.key, job.order) + RoundsLeft(u, p.token, |job.order| - |p.finished|)
  }

  lemma {:induction false} TasksLeftMonotone(
      u: Unit, m: map<Host, Node>, n: map<Host, Node>, k: JobKey, hosts: seq<Host>)
    requires forall h :: h in hosts ==> TaskLeft(u, n, k, h) <= TaskLeft(u, m, k, h)
    ensures TasksLeft(u, n, k, hosts) <= TasksLeft(u, m, k, hosts)
  {
    if hosts != [] {
      TasksLeftMonotone(u, m, n, k, hosts[1..]);
    }
  }

  lemma {:induction false} TasksLeftDrops(
      u: Unit, m: map<Host, Node>, n: map<Host, Node>, k: JobKey, hosts: seq<Host>, h: Host, d: nat)
    requires forall g :: g in hosts ==> TaskLeft(u, n, k, g) <= TaskLeft(u, m, k, g)
    requires h in hosts && TaskLeft(u, n, k, h) + d <= TaskLeft(u, m, k, h)
    ensures TasksLeft(u, n, k, hosts) + d <= TasksLeft(u, m, k, hosts)
  {
    if h == hosts[0] {
      TasksLeftMonotone(u, m, n, k, hosts[1..]);
    } else {
      TasksLeftDrops(u, m, n, k, hosts[1..], h, d);
    }
  }

  lemma {:induction false} TasksLeftBound(n: map<Host, Node>, k: JobKey, hosts: seq<Host>)
    ensures TasksLeft(Commands, n, k, hosts) <= 2 * |hosts|
  {
    if hosts != [] { TasksLeftBound(n, k, hosts[1..]); }
  }

  lemma RoundsLeftIsNotNegative(u: Unit, job: Job, p: Past, speaker: Option<Host>)
    requires Linked(job, p, speaker) && job.order != []
    ensures |p.finished| <= |job.order|
    ensures RoundsLeft(u, p.token, |job.order| - |p.finished|) >= 0
    ensures p.token.Judged? ==> |p.finished| < |job.order|
  {
  }

  // --- Every step pays. ---

  ghost predicate Pays(s: Cluster, t: Cluster, k: JobKey)
    requires k in s.past && k in s.store.jobs
  {
    && k in t.past && k in t.store.jobs && SameJob(s.store.jobs[k], t.store.jobs[k])
    && t.past[k].published + Potential(Commands, t.nodes, t.store.jobs[k], t.past[k])
         <= s.past[k].published + Potential(Commands, s.nodes, s.store.jobs[k], s.past[k])
  }

  ghost predicate RoundsPay(s: Cluster, t: Cluster, k: JobKey)
    requires k in s.past && k in s.store.jobs && k in t.past
  {
    var n := |s.store.jobs[k].order|;
    t.past[k].published + RoundsLeft(Commands, t.past[k].token, n - |t.past[k].finished|)
      <= s.past[k].published + RoundsLeft(Commands, s.past[k].token, n - |s.past[k].finished|)
  }

  lemma RoundsPayIsEnough(s: Cluster, t: Cluster, k: JobKey)
    requires k in s.past && k in s.store.jobs && k in t.past && k in t.store.jobs
    requires SameJob(s.store.jobs[k], t.store.jobs[k]) && s.store.jobs[k].key == k
    requires forall h :: TaskLeft(Commands, t.nodes, k, h) <= TaskLeft(Commands, s.nodes, k, h)
    requires RoundsPay(s, t, k)
    ensures Pays(s, t, k)
  {
    TasksLeftMonotone(Commands, s.nodes, t.nodes, k, s.store.jobs[k].order);
  }

  lemma TaskPays(s: Cluster, t: Cluster, k: JobKey, h: Host)
    requires k in s.past && k in s.store.jobs && k in t.past && k in t.store.jobs
    requires SameJob(s.store.jobs[k], t.store.jobs[k])
    requires forall g :: TaskLeft(Commands, t.nodes, k, g) <= TaskLeft(Commands, s.nodes, k, g)
    requires TaskLeft(Commands, t.nodes, k, h) < TaskLeft(Commands, s.nodes, k, h)
    requires s.store.jobs[k].key == k && h in s.store.jobs[k].order
    requires t.past[k].published == s.past[k].published + 1
    requires t.past[k].token == s.past[k].token && t.past[k].finished == s.past[k].finished
    ensures Pays(s, t, k)
  {
    TasksLeftDrops(Commands, s.nodes, t.nodes, k, s.store.jobs[k].order, h, 1);
  }

  // The token stays, is spent, or is passed on to its next place.
  ghost predicate PassesOn(p: Past, q: Past) {
    || (q.finished == p.finished && (q.token == p.token || q.token == Spent))
    || (q.finished == p.finished && p.token == AtBarrier && q.token.Triggered?)
    || (q.finished == p.finished && p.token.Confirmation? && q.token.Permission?)
    || (|q.finished| == |p.finished| + 1 && p.token.Judged? && (q.token.Triggered? || q.token == Spent))
  }

  lemma PassingOnKeepsRounds(u: Unit, p: Past, q: Past, n: nat)
    requires PassesOn(p, q) && RoundsLeft(u, p.token, n - |p.finished|) >= 0
    ensures RoundsLeft(u, q.token, n - |q.finished|) <= RoundsLeft(u, p.token, n - |p.finished|)
  {
  }

  lemma CommitPassesOn(s: Cluster, t: Cluster, id: nat, k: JobKey)
    requires id in s.flight && t == DoCommit(s, id) && k in s.past
    requires !s.flight[id].SubmitJob? && s.flight[id].key == k && FlightToken(s, id)
    requires s.flight[id].ConfigurationUpdate? && |Apply(s.store, s.flight[id]).events| == 2 ==>
             s.past[k].token == AtBarrier
    ensures k in t.past && t.past[k].published == s.past[k].published && PassesOn(s.past[k], t.past[k])
  {
    var c, o := s.flight[id], Apply(s.store, s.flight[id]);
    assert t.past[k] == PastAfter(s.past[k], c, o, |s.events|);
    if c.ConfigurationUpdate? { assert |o.events| <= 2; }
  }

  // No commit adds to what the restarts may still do, whatever is counted.
  lemma CommitKeepsRounds(u: Unit, s: Cluster, t: Cluster, id: nat, k: JobKey)
    requires id in s.flight && t == DoCommit(s, id) && k in s.past && k in s.store.jobs
    requires !s.flight[id].SubmitJob? && s.flight[id].key == k
    requires FlightToken(s, id)
    requires Linked(s.store.jobs[k], s.past[k], Speaker(s, s.past[k].token)) && s.store.jobs[k].order != []
    requires s.flight[id].ConfigurationUpdate? && |Apply(s.store, s.flight[id]).events| == 2 ==>
             s.past[k].token == AtBarrier
    ensures k in t.past && t.past[k].published == s.past[k].published
    ensures var n := |s.store.jobs[k].order|;
            RoundsLeft(u, t.past[k].token, n - |t.past[k].finished|)
              <= RoundsLeft(u, s.past[k].token, n - |s.past[k].finished|)
  {
    RoundsLeftIsNotNegative(u, s.store.jobs[k], s.past[k], Speaker(s, s.past[k].token));
    CommitPassesOn(s, t, id, k);
    PassingOnKeepsRounds(u, s.past[k], t.past[k], |s.store.jobs[k].order|);
  }

  lemma AnnouncementFindsBarrier(s: Cluster, id: nat)
    requires Inv(s) && id in s.flight && s.flight[id].ConfigurationUpdate?
    requires |Apply(s.store, s.flight[id]).events| == 2
    ensures s.flight[id].key in s.past && s.past[s.flight[id].key].token == AtBarrier
  {
    var c := s.flight[id];
    assert ReportOk(s, id) && TaskOk(s, c.host, c.key);
    JobIsKnown(s, c.key);
    AllConfiguredAfter(s.store.jobs[c.key].configuration, c.host, c.configuration);
    QueuesAreBehind(s, c.host);
    SuccessFindsBarrier(s, id, c.key, c.host);
  }

  lemma CommitPays(s: Cluster, t: Cluster, id: nat, k: JobKey)
    requires Inv(s) && id in s.flight && t == DoCommit(s, id) && k in s.past
    ensures Pays(s, t, k)
  {
    var c := s.flight[id];
    CommitIsCommitted(s, t, id);
    CommitKeepsOtherJobs(s, t, id);
    JobIsKnown(s, k);
    if c.SubmitJob? {
      NextKeyIsNew(s.store, c.request);
    } else if c.key == k {
      assert FlightToken(s, id);
      if c.ConfigurationUpdate? && |Apply(s.store, c).events| == 2 {
        AnnouncementFindsBarrier(s, id);
      }
      CommitKeepsRounds(Commands, s, t, id, k);
    }
    RoundsPayIsEnough(s, t, k);
  }

  lemma ConfirmPays(s: Cluster, t: Cluster, h: Host, k: JobKey, j: JobKey)
    requires h in s.nodes && k in s.past && j in s.past && j in s.store.jobs && s.store.jobs[j].key == j
    requires s.past[k].token.Triggered? && t == DoConfirm(s, h, k)
    ensures Pays(s, t, j)
  {
    RoundsPayIsEnough(s, t, j);
  }

  lemma PreparePays(s: Cluster, t: Cluster, h: Host, k: JobKey, j: JobKey)
    requires h in s.nodes && k in s.past && j in s.past && j in s.store.jobs && s.store.jobs[j].key == j
    requires s.past[k].token.Permission? && t == DoPrepare(s, h, k)
    ensures Pays(s, t, j)
  {
    RoundsPayIsEnough(s, t, j);
  }

  lemma QuietHandlePays(s: Cluster, t: Cluster, h: Host, k: JobKey)
    requires h in s.nodes && s.nodes[h].handled < |s.events| && t == DoHandle(s, h)
    requires k in s.past && k in s.store.jobs && s.store.jobs[k].key == k
    requires Answer(s, h).Ignore? || Answer(s, h).Configure?
    ensures Pays(s, t, k)
  {
    RoundsPayIsEnough(s, t, k);
  }

  lemma HandlePays(s: Cluster, t: Cluster, h: Host, k: JobKey)
    requires Inv(s) && CanHandle(s, h) && t == DoHandle(s, h) && k in s.past
    ensures Pays(s, t, k)
  {
    JobIsKnown(s, k);
    assert EventToken(s, s.nodes[h].handled);
    match Answer(s, h) {
      case Confirm(j) => ConfirmPays(s, t, h, j, k);
      case Restart(j) => PreparePays(s, t, h, j, k);
      case _ => QuietHandlePays(s, t, h, k);
    }
  }

  lemma TaskMoves(u: Unit, s: Cluster, t: Cluster, h: Host, j: JobKey, task: Task)
    requires h in s.nodes && j in s.nodes[h].tasks && t.nodes == SetTask(s, h, j, task)
    ensures forall g, k :: g != h || k != j ==> TaskLeft(u, t.nodes, k, g) == TaskLeft(u, s.nodes, k, g)
  {
  }

  lemma AnnouncePays(s: Cluster, t: Cluster, h: Host, j: JobKey, k: JobKey)
    requires h in s.nodes && j in s.nodes[h].tasks && s.nodes[h].tasks[j].Spawned? && t == DoAnnounce(s, h, j)
    requires k in s.past && k in s.store.jobs && s.store.jobs[k].key == k
    requires j in s.past && (j == k ==> h in s.store.jobs[k].order)
    ensures Pays(s, t, k)
  {
    TaskMoves(Commands, s, t, h, j, Announcing(s.next));
    if j == k { TaskPays(s, t, k, h); } else { RoundsPayIsEnough(s, t, k); }
  }

  lemma ReportPays(s: Cluster, t: Cluster, h: Host, j: JobKey, result: Result, k: JobKey)
    requires h in s.nodes && j in s.nodes[h].tasks && s.nodes[h].tasks[j].Executing? && t == DoReport(s, h, j, result)
    requires k in s.past && k in s.store.jobs && s.store.jobs[k].key == k
    requires j in s.past && (j == k ==> h in s.store.jobs[k].order)
    ensures Pays(s, t, k)
  {
    TaskMoves(Commands, s, t, h, j, Reported(s.next));
    if j == k { TaskPays(s, t, k, h); } else { RoundsPayIsEnough(s, t, k); }
  }

  lemma ProceedPays(s: Cluster, t: Cluster, h: Host, j: JobKey, k: JobKey)
    requires h in s.nodes && j in s.nodes[h].tasks && s.nodes[h].tasks[j].Announcing? && t == DoProceed(s, h, j)
    requires k in s.past && k in s.store.jobs && s.store.jobs[k].key == k
    ensures Pays(s, t, k)
  {
    TaskMoves(Commands, s, t, h, j, Executing);
    RoundsPayIsEnough(s, t, k);
  }

  lemma ReturnPays(s: Cluster, t: Cluster, h: Host, k: JobKey)
    requires h in s.nodes && ConsumerToken(s, h) && t == DoReturn(s, h)
    requires k in s.past && k in s.store.jobs && s.store.jobs[k].key == k
    ensures Pays(s, t, k)
  {
    RoundsPayIsEnough(s, t, k);
  }

  lemma FinishPays(s: Cluster, t: Cluster, h: Host, result: Result, k: JobKey)
    requires h in s.nodes && s.nodes[h].consumer.InDeploy? && ConsumerToken(s, h) && t == DoFinish(s, h, result)
    requires k in s.past && k in s.store.jobs && s.store.jobs[k].key == k
    ensures Pays(s, t, k)
  {
    RoundsPayIsEnough(s, t, k);
  }

  lemma LosePays(s: Cluster, t: Cluster, id: nat, k: JobKey)
    requires id in s.flight && t == DoLose(s, id)
    requires k in s.past && k in s.store.jobs && s.store.jobs[k].key == k
    requires RoundsLeft(Commands, s.past[k].token, |s.store.jobs[k].order| - |s.past[k].finished|) >= 0
    ensures Pays(s, t, k)
  {
    RoundsPayIsEnough(s, t, k);
  }

  lemma ApplyPays(s: Cluster, t: Cluster, h: Host, k: JobKey)
    requires h in s.nodes && t == DoApply(s, h)
    requires k in s.past && k in s.store.jobs && s.store.jobs[k].key == k
    ensures Pays(s, t, k)
  {
    RoundsPayIsEnough(s, t, k);
  }

  lemma SendPays(s: Cluster, t: Cluster, c: Command, k: JobKey)
    requires t == Send(s, c)
    requires k in s.past && k in s.store.jobs && s.store.jobs[k].key == k
    ensures Pays(s, t, k)
  {
    RoundsPayIsEnough(s, t, k);
  }

  lemma TaskIsOfItsJob(s: Cluster, h: Host, j: JobKey)
    requires Inv(s) && h in s.nodes && j in s.nodes[h].tasks
    ensures j in s.past && j in s.store.jobs && h in s.store.jobs[j].order
  {
    assert TaskOk(s, h, j);
    JobIsKnown(s, j);
  }

  lemma LossPays(s: Cluster, t: Cluster, id: nat, k: JobKey)
    requires Inv(s) && id in s.flight && t == DoLose(s, id) && k in s.past
    ensures Pays(s, t, k)
  {
    JobIsKnown(s, k);
    RoundsLeftIsNotNegative(Commands, s.store.jobs[k], s.past[k], Speaker(s, s.past[k].token));
    LosePays(s, t, id, k);
  }

  // The steps of users and replicas.
  lemma PassiveStepPays(s: Cluster, t: Cluster, a: Action, k: JobKey)
    requires Inv(s) && Enabled(s, a) && t == Do(s, a) && k in s.past
    requires a.Applies? || a.Submits? || a.Cancels?
    ensures Pays(s, t, k)
  {
    JobIsKnown(s, k);
    match a {
      case Applies(h) => ApplyPays(s, t, h, k);
      case Submits(r) => SendPays(s, t, SubmitJob(r), k);
      case Cancels(j) => SendPays(s, t, CancelJob(j), k);
    }
  }

  // The steps of a configuration task.
  lemma TaskStepPays(s: Cluster, t: Cluster, a: Action, k: JobKey)
    requires Inv(s) && Enabled(s, a) && t == Do(s, a) && k in s.past
    requires a.Announces? || a.Proceeds? || a.Reports?
    ensures Pays(s, t, k)
  {
    JobIsKnown(s, k);
    TaskIsOfItsJob(s, a.host, a.key);
    match a {
      case Announces(h, j) => AnnouncePays(s, t, h, j, k);
      case Proceeds(h, j) => ProceedPays(s, t, h, j, k);
      case Reports(h, j, result) => ReportPays(s, t, h, j, result, k);
    }
  }

  lemma ConsumerStepPays(s: Cluster, t: Cluster, a: Action, k: JobKey)
    requires Inv(s) && Enabled(s, a) && t == Do(s, a) && k in s.past
    requires a.Handles? || a.Returns? || a.Finishes?
    ensures Pays(s, t, k)
  {
    JobIsKnown(s, k);
    assert ConsumerToken(s, a.host);
    match a {
      case Handles(h) => HandlePays(s, t, h, k);
      case Returns(h) => ReturnPays(s, t, h, k);
      case Finishes(h, result) => FinishPays(s, t, h, result, k);
    }
  }

  lemma StepPays(s: Cluster, t: Cluster, a: Action, k: JobKey)
    requires Inv(s) && Enabled(s, a) && t == Do(s, a) && k in s.past
    ensures Pays(s, t, k)
  {
    match a {
      case Commits(id) => CommitPays(s, t, id, k);
      case Loses(id) => LossPays(s, t, id, k);
      case Applies(_) => PassiveStepPays(s, t, a, k);
      case Submits(_) => PassiveStepPays(s, t, a, k);
      case Cancels(_) => PassiveStepPays(s, t, a, k);
      case Handles(_) => ConsumerStepPays(s, t, a, k);
      case Returns(_) => ConsumerStepPays(s, t, a, k);
      case Finishes(_, _) => ConsumerStepPays(s, t, a, k);
      case _ => TaskStepPays(s, t, a, k);
    }
  }

  // --- Every command is counted. ---

  ghost predicate Counted(s: Cluster, k: JobKey)
    requires k in s.past
  {
    Logged(s.log, k) + |Flying(s.flight, k)| + 1 <= s.past[k].published
  }

  // Hosts speak only of jobs that exist.
  ghost predicate Known(s: Cluster) {
    && (forall id :: id in s.flight && !s.flight[id].SubmitJob? && !s.flight[id].CancelJob? ==>
         s.flight[id].key in s.past)
    && (forall i :: 0 <= i < |s.log| && !s.log[i].SubmitJob? && !s.log[i].CancelJob? ==> s.log[i].key in s.past)
  }

  // What a step says.
  datatype Talk = Silence | Says(c: Command) | Logs(id: nat) | Drops(id: nat)

  function TalkOf(s: Cluster, a: Action): Talk
    requires Enabled(s, a)
  {
    match a
    case Submits(r) => Says(SubmitJob(r))
    case Cancels(k) => Says(CancelJob(k))
    case Commits(id) => Logs(id)
    case Loses(id) => Drops(id)
    case Applies(_) => Silence
    case Handles(h) =>
      (match Answer(s, h)
       case Confirm(k) => Says(RestartConfirmation(k))
       case Restart(k) => Says(RestartServiceUpdate(k, h, DeploymentRestarting))
       case _ => Silence)
    case Returns(_) => Silence
    case Finishes(h, result) => Says(RestartServiceUpdate(s.nodes[h].consumer.key, h, DeploymentVerdict(result)))
    case Announces(h, k) => Says(ConfigurationUpdate(k, h, ConfigurationRunning))
    case Proceeds(_, _) => Silence
    case Reports(h, k, result) => Says(ConfigurationUpdate(k, h, ConfigurationVerdict(result)))
  }

  // The closed system says, step by step, what the program publishes: the consumer while it handles
  // an event, and a configuration task.
  lemma SaysWhatTheProgramPublishes(s: Cluster, h: Host, result: Result)
    requires h in s.nodes
    ensures Enabled(s, Handles(h)) ==>
              var all := Published(h, Answer(s, h), result);
              && TalkOf(s, Handles(h)) == (if all == [] then Silence else Says(all[0]))
              && (|all| == 2 ==> Answer(s, h).Restart?)
    ensures Enabled(s, Finishes(h, result)) ==>
              TalkOf(s, Finishes(h, result)) == Says(Published(h, Restart(s.nodes[h].consumer.key), result)[1])
    ensures forall k :: Enabled(s, Announces(h, k)) ==> TalkOf(s, Announces(h, k)) == Says(TaskReports(h, k, result)[0])
    ensures forall k :: Enabled(s, Reports(h, k, result)) ==>
              TalkOf(s, Reports(h, k, result)) == Says(TaskReports(h, k, result)[1])
  {
  }

  // What is said is put in flight, counted, and about a job with a record.
  ghost predicate Talks(s: Cluster, t: Cluster, talk: Talk) {
    && s.past.Keys <= t.past.Keys
    && match talk
       case Silence => t.log == s.log && t.flight == s.flight
       case Says(c) =>
         t.log == s.log && t.flight == s.flight[s.next := c] && (c.SubmitJob? || c.CancelJob? || c.key in t.past)
       case Logs(id) => id in s.flight && t.log == s.log + [s.flight[id]] && t.flight == s.flight - {id}
       case Drops(id) => id in s.flight && t.log == s.log && t.flight == s.flight - {id}
  }

  lemma StepTalks(s: Cluster, t: Cluster, a: Action)
    requires Enabled(s, a) && t == Do(s, a)
    ensures Talks(s, t, TalkOf(s, a))
  {
  }

  ghost predicate Counts(s: Cluster, t: Cluster, talk: Talk, k: JobKey)
    requires k in s.past
  {
    k in t.past && t.past[k].published == s.past[k].published + if talk.Says? && About(talk.c, k) then 1 else 0
  }

  lemma CommitCounts(s: Cluster, t: Cluster, id: nat, k: JobKey)
    requires Shape(s) && id in s.flight && t == DoCommit(s, id) && k in s.past
    ensures Counts(s, t, Logs(id), k)
  {
    if s.flight[id].SubmitJob? { NextKeyIsNew(s.store, s.flight[id].request); }
  }

  lemma StepCounts(s: Cluster, t: Cluster, a: Action, k: JobKey)
    requires Enabled(s, a) && !a.Commits? && t == Do(s, a) && k in s.past
    ensures Counts(s, t, TalkOf(s, a), k)
  {
  }

  lemma TalkKeepsCounted(s: Cluster, t: Cluster, talk: Talk, k: JobKey)
    requires k in s.past && Counted(s, k) && Talks(s, t, talk) && Counts(s, t, talk, k)
    requires s.next !in s.flight
    ensures Counted(t, k)
  {
    match talk {
      case Silence =>
      case Says(c) => FlyingGrows(s.flight, s.next, c, k);
      case Logs(id) =>
        assert t.log[..|t.log| - 1] == s.log;
        FlyingShrinks(s.flight, id, k);
      case Drops(id) => FlyingShrinks(s.flight, id, k);
    }
  }

  lemma TalkKeepsKnown(s: Cluster, t: Cluster, talk: Talk)
    requires Known(s) && Talks(s, t, talk)
    ensures Known(t)
  {
  }

  // --- The bound. ---

  ghost predicate Within(s: Cluster, k: JobKey)
    requires k in s.past && k in s.store.jobs
  {
    && Counted(s, k)
    && s.past[k].published + Potential(Commands, s.nodes, s.store.jobs[k], s.past[k]) <= 5 * |s.store.jobs[k].order| + 1
  }

  ghost predicate Bounded(s: Cluster)
    requires s.past.Keys == s.store.jobs.Keys
  {
    forall k {:trigger Within(s, k)} :: k in s.past ==> Within(s, k)
  }

  lemma {:induction false} NothingLogged(log: seq<Command>, k: JobKey)
    requires forall i :: 0 <= i < |log| ==> !About(log[i], k)
    ensures Logged(log, k) == 0
  {
    if log != [] { NothingLogged(log[..|log| - 1], k); }
  }

  lemma NewJobWithin(s: Cluster, t: Cluster, id: nat, k: JobKey)
    requires Known(s) && id in s.flight && s.flight[id].SubmitJob? && t == DoCommit(s, id)
    requires k !in s.past && k in t.past && k in t.store.jobs && k == NextKey(s.store, s.flight[id].request)
    requires k !in s.store.jobs
    ensures Within(t, k)
  {
    NothingLogged(t.log, k);
    assert Flying(t.flight, k) == {};
    TasksLeftBound(t.nodes, k, t.store.jobs[k].order);
  }

  lemma StepKeepsBounded(s: Cluster, t: Cluster, a: Action)
    requires Inv(s) && Inv(t) && Known(s) && Bounded(s) && Enabled(s, a) && t == Do(s, a)
    ensures Bounded(t)
  {
    forall k | k in t.past ensures Within(t, k) {
      if k in s.past {
        assert Within(s, k);
        StepPays(s, t, a, k);
        StepTalks(s, t, a);
        if a.Commits? { CommitCounts(s, t, a.id, k); } else { StepCounts(s, t, a, k); }
        TalkKeepsCounted(s, t, TalkOf(s, a), k);
      } else {
        NewPastIsSubmitted(s, t, a, k);
        NewJobWithin(s, t, a.id, k);
      }
    }
  }

  lemma {:induction false} RunKeepsBounded(s: Cluster, actions: seq<Action>, t: Cluster)
    requires Inv(s) && Known(s) && Bounded(s) && Run(s, actions, t)
    ensures Inv(t) && Known(t) && Bounded(t)
    decreases |actions|
  {
    if actions != [] {
      var next := Do(s, actions[0]);
      StepKeepsInv(s, actions[0]);
      StepTalks(s, next, actions[0]);
      TalkKeepsKnown(s, next, TalkOf(s, actions[0]));
      StepKeepsBounded(s, next, actions[0]);
      RunKeepsBounded(next, actions[1..], t);
    }
  }

  // Hosts speak only of jobs that exist.
  lemma ReachableKnown(s: Cluster)
    requires Reachable(s)
    ensures Inv(s) && Known(s)
  {
    var s0: Cluster, actions: seq<Action> :| Initial(s0) && Run(s0, actions, s);
    InitialInv(s0);
    RunKeepsBounded(s0, actions, s);
  }

  // In every run, the hosts of a job over n places publish at most 5n commands about it, those
  // in the log and those in flight together: two reports per configuration, one confirmation and
  // two reports per restart.  The submission makes it 5n + 1.
  lemma {:induction false} BoundedTraffic(s: Cluster, k: JobKey)
    requires Reachable(s) && k in s.store.jobs
    ensures Logged(s.log, k) + |Flying(s.flight, k)| <= 5 * |s.store.jobs[k].order|
  {
    var s0: Cluster, actions: seq<Action> :| Initial(s0) && Run(s0, actions, s);
    InitialInv(s0);
    RunKeepsBounded(s0, actions, s);
    assert Within(s, k);
    JobIsKnown(s, k);
    RoundsLeftIsNotNegative(Commands, s.store.jobs[k], s.past[k], Speaker(s, s.past[k].token));
  }
}
