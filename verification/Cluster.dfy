/**
 The whole system as a transition system: one totally ordered log of commands, and on every host a
 replica that applies it, a queue of broadcast events, a single-threaded consumer with its job
 pool, and background configuration tasks.  Users submit and cancel; everything else is published
 by the hosts.

 A published command is in flight until it is committed or lost, and commands in flight are
 committed in any order.  A publisher that waits may give up waiting at any time, while its command
 is still in flight.  Events reach a host in log order, in a queue without bound.
 */
module Cluster {
  import opened Entities
  import opened RaftApp
  import opened Controller

  // A background configuration task.
  datatype Task =
    | Spawned                // the goroutine has been created
    | Announcing(id: nat)    // waits for its CONFIGURING report
    | Executing              // inside Execute
    | Reported(id: nat)      // has published its last report

  // What the consumer goroutine is doing.
  datatype Consumer =
    | Idle
    | Confirming(key: JobKey, id: nat)   // waits for a confirmation it published
    | Preparing(key: JobKey, id: nat)    // waits for its RESTARTING report
    | InDeploy(key: JobKey)              // inside Deploy
    | Reporting(key: JobKey, id: nat)    // waits for the report with the verdict

  // `applied` counts log entries applied by the replica, `handled` the events the consumer took.
  // The job pool holds the jobs with a configuration task.
  datatype Node = Node(
    applied: nat,
    handled: nat,
    tasks: map<JobKey, Task>,
    consumer: Consumer)

  // The one permission to go on that a job has: where it is, or that it is gone.
  datatype Token =
    | AtBarrier              // not every host is configured yet
    | Triggered(at: nat)     // an event that makes its trigger host confirm, not handled yet
    | Confirmation(id: nat)  // a confirmation in flight
    | Permission(at: nat)    // a restart event, not handled by its target yet
    | Prepares(host: Host)   // the target announces the restart
    | Runs(host: Host)       // the target is inside Deploy
    | Judged(id: nat)        // the verdict is in flight
    | Spent

  // What has happened to a job so far.  No guard reads any of this.
  datatype Past = Past(
    token: Token,
    executed: set<Host>,     // configure Execute returned success
    configured: set<Host>,   // ... and the SUCCESS report was applied
    started: seq<Host>,      // entered Deploy, in order
    finished: seq<Host>,     // Deploy succeeded and the verdict was accepted, in order
    published: nat,          // commands published on behalf of the job, cancellations aside
    born: nat)               // place of its creation among the events

  // `marks[i]` is the number of events that the first i log entries broadcast.
  datatype Cluster = Cluster(
    store: Store,
    log: seq<Command>,
    events: seq<Event>,
    marks: seq<nat>,
    flight: map<nat, Command>,
    next: nat,
    nodes: map<Host, Node>,
    past: map<JobKey, Past>)

  datatype Action =
    | Submits(request: SubmitRequest)
    | Cancels(key: JobKey)
    | Commits(id: nat)
    | Loses(id: nat)
    | Applies(host: Host)
    | Handles(host: Host)
    | Returns(host: Host)
    | Finishes(host: Host, result: Result)
    | Announces(host: Host, key: JobKey)
    | Proceeds(host: Host, key: JobKey)
    | Reports(host: Host, key: JobKey, result: Result)

  predicate Initial(s: Cluster) {
    && s.store.jobs == map[]
    && s.log == [] && s.events == [] && s.marks == [0]
    && s.flight == map[]
    && s.past == map[]
    && forall h :: h in s.nodes ==> s.nodes[h] == Node(0, 0, map[], Idle)
  }

  predicate Enabled(s: Cluster, a: Action) {
    match a
    case Submits(request) => true
    case Cancels(key) => true
    case Commits(id) => id in s.flight
    case Loses(id) => id in s.flight
    case Applies(h) => h in s.nodes && s.nodes[h].applied < |s.log|
    case Handles(h) =>
      h in s.nodes && s.nodes[h].consumer == Idle && s.nodes[h].applied < |s.marks|
      && s.nodes[h].handled < s.marks[s.nodes[h].applied] <= |s.events|
    case Returns(h) => h in s.nodes && !s.nodes[h].consumer.Idle? && !s.nodes[h].consumer.InDeploy?
    case Finishes(h, result) => h in s.nodes && s.nodes[h].consumer.InDeploy?
    case Announces(h, k) => h in s.nodes && k in s.nodes[h].tasks && s.nodes[h].tasks[k].Spawned?
    case Proceeds(h, k) => h in s.nodes && k in s.nodes[h].tasks && s.nodes[h].tasks[k].Announcing?
    case Reports(h, k, result) => h in s.nodes && k in s.nodes[h].tasks && s.nodes[h].tasks[k].Executing?
  }

  function Send(s: Cluster, c: Command): Cluster {
    s.(flight := s.flight[s.next := c], next := s.next + 1)
  }

  function PastOf(s: Cluster, k: JobKey): Past {
    if k in s.past then s.past[k] else Past(Spent, {}, {}, [], [], 0, 0)
  }

  function DoApply(s: Cluster, h: Host): Cluster
    requires h in s.nodes
  {
    s.(nodes := s.nodes[h := s.nodes[h].(applied := s.nodes[h].applied + 1)])
  }

  function Take(s: Cluster, h: Host): Node
    requires h in s.nodes
  {
    s.nodes[h].(handled := s.nodes[h].handled + 1)
  }

  function DoConfirm(s: Cluster, h: Host, k: JobKey): Cluster
    requires h in s.nodes
  {
    var p := PastOf(s, k);
    Send(s, RestartConfirmation(k)).(
      nodes := s.nodes[h := Take(s, h).(consumer := Confirming(k, s.next))],
      past := s.past[k := p.(token := Confirmation(s.next), published := p.published + 1)])
  }

  function DoPrepare(s: Cluster, h: Host, k: JobKey): Cluster
    requires h in s.nodes
  {
    var p := PastOf(s, k);
    Send(s, RestartServiceUpdate(k, h, DeploymentRestarting)).(
      nodes := s.nodes[h := Take(s, h).(consumer := Preparing(k, s.next))],
      past := s.past[k := p.(token := Prepares(h), published := p.published + 1)])
  }

  function Answer(s: Cluster, h: Host): Reaction
    requires h in s.nodes && s.nodes[h].handled < |s.events|
  {
    Decide(s.nodes[h].tasks.Keys, h, s.events[s.nodes[h].handled])
  }

  function DoHandle(s: Cluster, h: Host): Cluster
    requires h in s.nodes && s.nodes[h].handled < |s.events|
  {
    match Answer(s, h)
    case Ignore => s.(nodes := s.nodes[h := Take(s, h)])
    case Configure(k) => s.(nodes := s.nodes[h := Take(s, h).(tasks := s.nodes[h].tasks[k := Spawned])])
    case Confirm(k) => DoConfirm(s, h, k)
    case Restart(k) => DoPrepare(s, h, k)
  }

  function DoReturn(s: Cluster, h: Host): Cluster
    requires h in s.nodes
  {
    var n := s.nodes[h];
    match n.consumer
    case Preparing(k, id) =>
      var p := PastOf(s, k);
      s.(nodes := s.nodes[h := n.(consumer := InDeploy(k))],
         past := s.past[k := p.(token := Runs(h), started := p.started + [h])])
    case _ => s.(nodes := s.nodes[h := n.(consumer := Idle)])
  }

  function DoFinish(s: Cluster, h: Host, result: Result): Cluster
    requires h in s.nodes && s.nodes[h].consumer.InDeploy?
  {
    var n := s.nodes[h];
    var k := n.consumer.key;
    var p := PastOf(s, k);
    Send(s, RestartServiceUpdate(k, h, DeploymentVerdict(result))).(
      nodes := s.nodes[h := n.(consumer := Reporting(k, s.next))],
      past := s.past[k := p.(token := Judged(s.next), published := p.published + 1)])
  }

  function SetTask(s: Cluster, h: Host, k: JobKey, t: Task): map<Host, Node>
    requires h in s.nodes
  {
    s.nodes[h := s.nodes[h].(tasks := s.nodes[h].tasks[k := t])]
  }

  function DoAnnounce(s: Cluster, h: Host, k: JobKey): Cluster
    requires h in s.nodes
  {
    var p := PastOf(s, k);
    Send(s, ConfigurationUpdate(k, h, ConfigurationRunning)).(
      nodes := SetTask(s, h, k, Announcing(s.next)),
      past := s.past[k := p.(published := p.published + 1)])
  }

  function DoProceed(s: Cluster, h: Host, k: JobKey): Cluster
    requires h in s.nodes
  {
    s.(nodes := SetTask(s, h, k, Executing))
  }

  function DoReport(s: Cluster, h: Host, k: JobKey, result: Result): Cluster
    requires h in s.nodes
  {
    var p := PastOf(s, k);
    Send(s, ConfigurationUpdate(k, h, ConfigurationVerdict(result))).(
      nodes := SetTask(s, h, k, Reported(s.next)),
      past := s.past[k := p.(published := p.published + 1,
                             executed := if result.Succeeded? then p.executed + {h} else p.executed)])
  }

  // What committing `c`, with outcome `o`, adds to the past of its job.
  function PastAfter(p: Past, c: Command, o: Outcome, at: nat): Past
    requires !c.SubmitJob?
  {
    match c
    case ConfigurationUpdate(k, h, status) =>
      if o.error != None then p
      else
        var noted := if status == ConfigurationSuccess then p.(configured := p.configured + {h}) else p;
        if |o.events| < 2 then noted
        else noted.(token := if k in o.store.jobs && o.store.jobs[k].believe then Triggered(at + 1) else Spent)
    case RestartConfirmation(k) =>
      p.(token := if o.error == None then Permission(at) else Spent)
    case RestartServiceUpdate(k, h, status) =>
      if !Verdict(status) then p
      else if o.error != None || status != DeploymentSuccess then p.(token := Spent)
      else
        var going := k in o.store.jobs && o.store.jobs[k].believe && o.store.jobs[k].status != Deployed;
        p.(finished := p.finished + [h], token := if going then Triggered(at) else Spent)
    case CancelJob(k) => p
  }

  function DoCommit(s: Cluster, id: nat): Cluster
    requires id in s.flight
  {
    var c := s.flight[id];
    var o := Apply(s.store, c);
    var past :=
      if c.SubmitJob? then
        if o.error != None then s.past
        else s.past[NextKey(s.store, c.request) := Past(AtBarrier, {}, {}, [], [], 1, |s.events|)]
      else if c.key in s.past then s.past[c.key := PastAfter(s.past[c.key], c, o, |s.events|)]
      else s.past;
    s.(store := o.store,
       log := s.log + [c],
       events := s.events + o.events,
       marks := s.marks + [|s.events + o.events|],
       flight := s.flight - {id},
       past := past)
  }

  function DoLose(s: Cluster, id: nat): Cluster
    requires id in s.flight
  {
    var c := s.flight[id];
    var rest := s.(flight := s.flight - {id});
    if !c.SubmitJob? && c.key in s.past &&
        (s.past[c.key].token == Confirmation(id) || s.past[c.key].token == Judged(id)) then
      rest.(past := s.past[c.key := s.past[c.key].(token := Spent)])
    else
      rest
  }

  function Do(s: Cluster, a: Action): Cluster
    requires Enabled(s, a)
  {
    match a
    case Submits(request) => Send(s, SubmitJob(request))
    case Cancels(key) => Send(s, CancelJob(key))
    case Commits(id) => DoCommit(s, id)
    case Loses(id) => DoLose(s, id)
    case Applies(h) => DoApply(s, h)
    case Handles(h) => DoHandle(s, h)
    case Returns(h) => DoReturn(s, h)
    case Finishes(h, result) => DoFinish(s, h, result)
    case Announces(h, k) => DoAnnounce(s, h, k)
    case Proceeds(h, k) => DoProceed(s, h, k)
    case Reports(h, k, result) => DoReport(s, h, k, result)
  }

  predicate Run(s: Cluster, actions: seq<Action>, t: Cluster)
    decreases |actions|
  {
    if actions == [] then s == t
    else Enabled(s, actions[0]) && Run(Do(s, actions[0]), actions[1..], t)
  }
}
