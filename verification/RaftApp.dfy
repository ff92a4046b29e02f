/**
 The replicated state machine that decides the life of a deployment job.

 `Apply` says, as a function of the store alone, what one command does.  The class `App` has
 the handlers in the form the program has them: they fetch a job, change it step by step, loop
 over hosts and maps, post the job back and broadcast.
 */
module RaftApp {
  import opened Entities

  datatype ServiceKey = ServiceKey(ns: string, service: string)

  // `issued` is the last id given out per (namespace, service); `instances` the hosts on which a
  // service already has an instance.
  datatype Store = Store(
    jobs: map<JobKey, Job>,
    issued: map<ServiceKey, nat>,
    instances: map<ServiceKey, seq<Host>>)

  datatype Error =
    | NoTargetHost
    | DuplicateReplica
    | JobNotFound
    | AlreadyFinished
    | InvalidHost
    | NotConfirmable
    | InvalidState
    | NotOnDeployment
    | Panicked  // nil dereference or index out of range in the handler

  datatype Outcome = Outcome(store: Store, events: seq<Event>, error: Option<Error>)

  function Reject(store: Store, error: Error): Outcome {
    Outcome(store, [], Some(error))
  }

  function Accept(store: Store, job: Job, events: seq<Event>): Outcome {
    Outcome(store.(jobs := store.jobs[job.key := job]), events, None)
  }

  function ExistingHosts(store: Store, r: SubmitRequest): seq<Host> {
    var key := ServiceKey(r.serviceNs, r.service);
    if key in store.instances then store.instances[key] else []
  }

  function TargetHosts(targets: seq<Target>): (hosts: seq<Host>)
    ensures |hosts| == |targets|
  {
    seq(|targets|, i requires 0 <= i < |targets| => targets[i].host)
  }

  function ReplicaIds(targets: seq<Target>): seq<nat> {
    seq(|targets|, i requires 0 <= i < |targets| => targets[i].replicaId)
  }

  function HostsOf(store: Store, r: SubmitRequest): seq<Host> {
    if ExistingHosts(store, r) != [] then ExistingHosts(store, r) else TargetHosts(r.targets)
  }

  function LastId(store: Store, ns: string, service: string): nat {
    if ServiceKey(ns, service) in store.issued then store.issued[ServiceKey(ns, service)] else 0
  }

  function NextKey(store: Store, r: SubmitRequest): JobKey {
    JobKey(r.ns, r.service, LastId(store, r.ns, r.service) + 1)
  }

  // A map that gives every listed host the same value; a repeated host appears once.
  function EachHost<V>(hosts: seq<Host>, v: V): (m: map<Host, V>)
    ensures m.Keys == Elements(hosts)
    ensures forall h :: h in m ==> m[h] == v
  {
    if hosts == [] then map[]
    else
      assert hosts == hosts[..|hosts| - 1] + [hosts[|hosts| - 1]];
      EachHost(hosts[..|hosts| - 1], v)[hosts[|hosts| - 1] := v]
  }

  function NewJob(key: JobKey, believe: bool, hosts: seq<Host>): Job {
    Job(key, Queued, believe, hosts, None,
        EachHost(hosts, DeploymentPending),
        EachHost(hosts, ConfigurationPending))
  }

  function Submit(store: Store, r: SubmitRequest): Outcome {
    if ExistingHosts(store, r) == [] && r.targets == [] then Reject(store, NoTargetHost)
    else if ExistingHosts(store, r) == [] && !Distinct(ReplicaIds(r.targets)) then Reject(store, DuplicateReplica)
    else
      var key := NextKey(store, r);
      var job := NewJob(key, r.believe, HostsOf(store, r));
      Accept(store.(issued := store.issued[ServiceKey(r.ns, r.service) := key.id]), job, [JobCreated(job)])
  }

  function Cancel(store: Store, key: JobKey): Outcome {
    if key !in store.jobs then Reject(store, Panicked)
    else
      var job := store.jobs[key];
      if job.status == Cancelled then Outcome(store, [], None)
      else if job.status == Success then Reject(store, AlreadyFinished)
      else Accept(store, job.(status := Cancelled), [])
  }

  predicate AllConfigured(configuration: map<Host, ConfigurationStatus>) {
    forall h :: h in configuration ==> configuration[h] == ConfigurationSuccess
  }

  function UpdateConfiguration(store: Store, key: JobKey, host: Host, status: ConfigurationStatus): Outcome {
    if key !in store.jobs then Reject(store, JobNotFound)
    else
      var job := store.jobs[key];
      if host !in job.configuration then Reject(store, InvalidHost)
      else
        var updated := job.(configuration := job.configuration[host := status]);
        if AllConfigured(updated.configuration) then
          var ready := updated.(status := Configured);
          Accept(store, ready, [HostConfigured(ready, host), AllHostConfigured(ready, host)])
        else
          Accept(store, updated, [HostConfigured(updated, host)])
  }

  function TargetAt(job: Job, step: nat): Host {
    if step < |job.order| then job.order[step] else ""
  }

  function Restart(store: Store, key: JobKey): Outcome {
    if key !in store.jobs then Reject(store, JobNotFound)
    else
      var job := store.jobs[key];
      if job.status != Configured && job.status != Deploying then Reject(store, NotConfirmable)
      else
        var started := if job.status == Configured then job.(status := Deploying, cursor := Some(0)) else job;
        if started.cursor == None then Reject(store, Panicked)
        else
          var step := started.cursor.value;
          Accept(store, started, [RestartConfirmed(started, TargetAt(started, step), step)])
  }

  function UpdateRestart(store: Store, key: JobKey, host: Host, status: DeploymentStatus): Outcome {
    if key !in store.jobs then Reject(store, JobNotFound)
    else
      var job := store.jobs[key];
      if job.status != Deploying then Reject(store, InvalidState)
      else if job.cursor == None || job.cursor.value >= |job.order| then Reject(store, Panicked)
      else if job.order[job.cursor.value] != host then Reject(store, NotOnDeployment)
      else
        var updated := job.(deployment := job.deployment[host := status]);
        if status == DeploymentFailed then
          Accept(store, updated.(status := Failed), [JobFailed])
        else if status != DeploymentSuccess then
          Accept(store, updated, [ServiceUpdated(updated, host)])
        else
          var advanced := updated.(cursor := Some(job.cursor.value + 1));
          if advanced.cursor.value >= |advanced.deployment| then
            var done := advanced.(status := Deployed);
            Accept(store, done, [ServiceRestarted(done, host), AllServiceRestarted(done, host)])
          else
            Accept(store, advanced, [ServiceRestarted(advanced, host)])
  }

  function Apply(store: Store, command: Command): Outcome {
    match command
    case SubmitJob(request) => Submit(store, request)
    case CancelJob(key) => Cancel(store, key)
    case ConfigurationUpdate(key, host, status) => UpdateConfiguration(store, key, host, status)
    case RestartConfirmation(key) => Restart(store, key)
    case RestartServiceUpdate(key, host, status) => UpdateRestart(store, key, host, status)
  }

  datatype Replica = Replica(store: Store, events: seq<Event>)

  // What a replica has stored and broadcast after applying a whole log.
  function Replay(start: Store, log: seq<Command>): Replica {
    if log == [] then Replica(start, [])
    else
      var before := Replay(start, log[..|log| - 1]);
      var outcome := Apply(before.store, log[|log| - 1]);
      Replica(outcome.store, before.events + outcome.events)
  }

  datatype ServiceInstance = ServiceInstance(host: Host, raftPort: nat, replicaId: nat)

  class App {
    var jobs: map<JobKey, Job>
    var issued: map<ServiceKey, nat>
    var instances: map<ServiceKey, seq<Host>>
    var topic: seq<Event>  // everything broadcast so far

    constructor (start: Store)
      ensures View() == start && topic == []
    {
      jobs, issued, instances, topic := start.jobs, start.issued, start.instances, [];
    }

    function View(): Store
      reads this
    {
      Store(jobs, issued, instances)
    }

    method OnUpdate(command: Command) returns (error: Option<Error>)
      modifies this
      ensures View() == Apply(old(View()), command).store
      ensures topic == old(topic) + Apply(old(View()), command).events
      ensures error == Apply(old(View()), command).error
    {
      match command {
        case SubmitJob(request) => error := UserSubmitJob(request);
        case CancelJob(key) => error := CancelJob(key);
        case ConfigurationUpdate(key, host, status) => error := HostConfigurationUpdate(key, host, status);
        case RestartConfirmation(key) => error := RestartHost(key);
        case RestartServiceUpdate(key, host, status) => error := HostRestartServiceUpdate(key, host, status);
      }
    }

    method Post(job: Job)
      modifies this`jobs
      ensures jobs == old(jobs)[job.key := job]
    {
      jobs := jobs[job.key := job];
    }

    method Broadcast(event: Event)
      modifies this`topic
      ensures topic == old(topic) + [event]
    {
      topic := topic + [event];
    }

    // For a first deployment: one new instance per target host, all on one random port, unless a
    // replica id repeats.
    method NewInstances(targets: seq<Target>) returns (instances: seq<ServiceInstance>, duplicate: bool)
      ensures duplicate <==> !Distinct(ReplicaIds(targets))
      ensures !duplicate ==> |instances| == |targets|
      ensures !duplicate ==>
                forall i :: 0 <= i < |targets| ==>
                  && instances[i].host == targets[i].host && instances[i].replicaId == targets[i].replicaId
                  && instances[i].raftPort == instances[0].raftPort && 14000 <= instances[i].raftPort < 14016
    {
      var port: nat :| 14000 <= port < 14016;
      var seen: set<nat> := {};
      instances, duplicate := [], false;
      for i := 0 to |targets|
        invariant |instances| == i
        invariant forall k :: 0 <= k < i ==>
                    instances[k] == ServiceInstance(targets[k].host, port, targets[k].replicaId)
        invariant forall id :: id in seen <==> exists k :: 0 <= k < i && ReplicaIds(targets)[k] == id
        invariant forall k, l :: 0 <= k < l < i ==> ReplicaIds(targets)[k] != ReplicaIds(targets)[l]
      {
        assert ReplicaIds(targets)[i] == targets[i].replicaId;
        if targets[i].replicaId in seen {
          return instances, true;
        }
        seen := seen + {targets[i].replicaId};
        instances := instances + [ServiceInstance(targets[i].host, port, targets[i].replicaId)];
      }
    }

    method InitialStatuses(hosts: seq<Host>)
      returns (order: seq<Host>, deployment: map<Host, DeploymentStatus>, configuration: map<Host, ConfigurationStatus>)
      ensures order == hosts
      ensures deployment == EachHost(hosts, DeploymentPending)
      ensures configuration == EachHost(hosts, ConfigurationPending)
    {
      order, deployment, configuration := [], map[], map[];
      for i := 0 to |hosts|
        invariant order == hosts[..i]
        invariant deployment == EachHost(hosts[..i], DeploymentPending)
        invariant configuration == EachHost(hosts[..i], ConfigurationPending)
      {
        assert hosts[..i + 1][..i] == hosts[..i];
        order := order + [hosts[i]];
        deployment := deployment[hosts[i] := DeploymentPending];
        configuration := configuration[hosts[i] := ConfigurationPending];
      }
      assert hosts[..|hosts|] == hosts;
    }

    method UserSubmitJob(r: SubmitRequest) returns (error: Option<Error>)
      modifies this
      ensures View() == Submit(old(View()), r).store
      ensures topic == old(topic) + Submit(old(View()), r).events
      ensures error == Submit(old(View()), r).error
      ensures error == None ==>
                && |topic| == |old(topic)| + 1 && topic[|old(topic)|].JobCreated?
                && var job := topic[|old(topic)|].job;
                   && job.believe == r.believe && job.status == Queued && job.cursor == None
                   && jobs == old(jobs)[job.key := job]
    {
      var hosts := ExistingHosts(View(), r);
      if |hosts| == 0 {
        if |r.targets| == 0 {
          return Some(NoTargetHost);
        }
        var created, duplicate := NewInstances(r.targets);
        if duplicate {
          return Some(DuplicateReplica);
        }
        hosts := seq(|created|, i requires 0 <= i < |created| => created[i].host);
      }
      assert hosts == HostsOf(View(), r);
      var order, deployment, configuration := InitialStatuses(hosts);
      var key := NextKey(View(), r);
      issued := issued[ServiceKey(r.ns, r.service) := key.id];
      var job := Job(key, Queued, r.believe, order, None, deployment, configuration);
      Post(job);
      Broadcast(JobCreated(job));
      error := None;
    }

    method CancelJob(key: JobKey) returns (error: Option<Error>)
      modifies this
      ensures View() == Cancel(old(View()), key).store
      ensures topic == old(topic) + Cancel(old(View()), key).events
      ensures error == Cancel(old(View()), key).error
      ensures topic == old(topic)
      ensures key in old(jobs) && old(jobs)[key].key == key && old(jobs)[key].status != Success ==>
                error == None && jobs == old(jobs)[key := old(jobs)[key].(status := Cancelled)]
    {
      if key !in jobs {
        return Some(Panicked);
      }
      var job := jobs[key];
      match job.status {
        case Cancelled => return None;
        case Success => return Some(AlreadyFinished);
        case _ =>
      }
      job := job.(status := Cancelled);
      Post(job);
      error := None;
    }

    // The map of host statuses is visited in an arbitrary order.
    method EveryHostConfigured(configuration: map<Host, ConfigurationStatus>) returns (all: bool)
      ensures all <==> AllConfigured(configuration)
    {
      all := true;
      var todo := configuration.Keys;
      while todo != {}
        invariant todo <= configuration.Keys
        invariant all <==> forall h :: h in configuration && h !in todo ==> configuration[h] == ConfigurationSuccess
      {
        var h :| h in todo;
        all := all && configuration[h] == ConfigurationSuccess;
        todo := todo - {h};
      }
    }

    method HostConfigurationUpdate(key: JobKey, host: Host, status: ConfigurationStatus) returns (error: Option<Error>)
      modifies this
      ensures View() == UpdateConfiguration(old(View()), key, host, status).store
      ensures topic == old(topic) + UpdateConfiguration(old(View()), key, host, status).events
      ensures error == UpdateConfiguration(old(View()), key, host, status).error
      ensures error == None && old(jobs)[key].key == key ==>
                key in jobs && jobs[key].configuration == old(jobs)[key].configuration[host := status]
    {
      if key !in jobs {
        return Some(JobNotFound);
      }
      var job := jobs[key];
      if host !in job.configuration {
        return Some(InvalidHost);
      }
      job := job.(configuration := job.configuration[host := status]);
      var all := EveryHostConfigured(job.configuration);
      if all {
        job := job.(status := Configured);
      }
      Post(job);
      Broadcast(HostConfigured(job, host));
      if all {
        Broadcast(AllHostConfigured(job, host));
      }
      error := None;
    }

    method RestartHost(key: JobKey) returns (error: Option<Error>)
      modifies this
      ensures View() == Restart(old(View()), key).store
      ensures topic == old(topic) + Restart(old(View()), key).events
      ensures error == Restart(old(View()), key).error
      ensures error == None ==> old(jobs)[key].status == Configured || old(jobs)[key].status == Deploying
    {
      if key !in jobs {
        return Some(JobNotFound);
      }
      var job := jobs[key];
      if job.status != Configured && job.status != Deploying {
        return Some(NotConfirmable);
      }
      if job.status == Configured {
        job := job.(status := Deploying, cursor := Some(0));
      }
      if job.cursor == None {
        return Some(Panicked);
      }
      Post(job);
      var step := job.cursor.value;
      var target := "";
      if step < |job.order| {
        target := job.order[step];
      }
      Broadcast(RestartConfirmed(job, target, step));
      error := None;
    }

    method HostRestartServiceUpdate(key: JobKey, host: Host, status: DeploymentStatus) returns (error: Option<Error>)
      modifies this
      ensures View() == UpdateRestart(old(View()), key, host, status).store
      ensures topic == old(topic) + UpdateRestart(old(View()), key, host, status).events
      ensures error == UpdateRestart(old(View()), key, host, status).error
    {
      if key !in jobs {
        return Some(JobNotFound);
      }
      var job := jobs[key];
      if job.status != Deploying {
        return Some(InvalidState);
      }
      if job.cursor == None || job.cursor.value >= |job.order| {
        return Some(Panicked);
      }
      if job.order[job.cursor.value] != host {
        return Some(NotOnDeployment);
      }
      job := job.(deployment := job.deployment[host := status]);
      if status == DeploymentFailed {
        job := job.(status := Failed);
        Post(job);
        Broadcast(JobFailed);
        return None;
      }
      if status != DeploymentSuccess {
        Post(job);
        Broadcast(ServiceUpdated(job, host));
        return None;
      }
      job := job.(cursor := Some(job.cursor.value + 1));
      if job.cursor.value >= |job.deployment| {
        job := job.(status := Deployed);
        Post(job);
        Broadcast(ServiceRestarted(job, host));
        Broadcast(AllServiceRestarted(job, host));
        return None;
      }
      Post(job);
      Broadcast(ServiceRestarted(job, host));
      error := None;
    }
  }

  // Two replicas that start equal and apply the same log end equal and have broadcast the same
  // events, whatever port each drew and in whatever order each visited its maps.
  method ReplicasAgree(start: Store, log: seq<Command>) returns (a: App, b: App)
    ensures a.View() == b.View() == Replay(start, log).store
    ensures a.topic == b.topic == Replay(start, log).events
  {
    a := new App(start);
    b := new App(start);
    for i := 0 to |log|
      invariant fresh(a) && fresh(b) && a != b
      invariant a.View() == b.View() == Replay(start, log[..i]).store
      invariant a.topic == b.topic == Replay(start, log[..i]).events
    {
      assert log[..i + 1][..i] == log[..i];
      var errorA := a.OnUpdate(log[i]);
      var errorB := b.OnUpdate(log[i]);
    }
    assert log[..|log|] == log;
  }
}
