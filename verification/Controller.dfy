/**
 What one host does with the events that its replica broadcasts.

 `React` is the decision; the class `JobsController` is the code that takes it, with the pool of
 known jobs as its state.
 */
module Controller {
  import opened Entities

  function Digit(n: nat): char
    requires n < 10
  {
    "0123456789"[n]
  }

  function Decimal(n: nat): (s: string)
    ensures s != [] && '\\' !in s
  {
    if n < 10 then [Digit(n)] else Decimal(n / 10) + [Digit(n % 10)]
  }

  lemma {:induction false} DecimalInjective(m: nat, n: nat)
    requires Decimal(m) == Decimal(n)
    ensures m == n
  {
    var s, t := Decimal(m), Decimal(n);
    assert s[|s| - 1] == Digit(m % 10) && t[|t| - 1] == Digit(n % 10);
    if m >= 10 && n >= 10 {
      assert s[..|s| - 1] == Decimal(m / 10) && t[..|t| - 1] == Decimal(n / 10);
      DecimalInjective(m / 10, n / 10);
    }
  }

  // The pool is keyed by namespace, service and id joined with backslashes.
  function GetKey(key: JobKey): string {
    key.ns + "\\" + key.service + "\\" + Decimal(key.id)
  }

  predicate CleanName(s: string) {
    '\\' !in s
  }

  predicate CleanKey(key: JobKey) {
    CleanName(key.ns) && CleanName(key.service)
  }

  function Prefix(key: JobKey): string {
    key.ns + "\\" + key.service
  }

  lemma SplitAtLastBackslash(x: string, s: string, y: string, t: string)
    requires CleanName(s) && CleanName(t)
    requires x + "\\" + s == y + "\\" + t
    ensures x == y && s == t
  {
    var all := x + "\\" + s;
    assert all[|x|] == '\\' && all[|y|] == '\\';
    assert forall i :: |x| < i < |all| ==> all[i] == s[i - |x| - 1];
    assert forall i :: |y| < i < |all| ==> all[i] == t[i - |y| - 1];
    assert x == all[..|x|] == y;
    assert s == all[|x| + 1..] == t;
  }

  // Which jobs share a pool entry: those with the same id whose namespace and service read the
  // same once they are joined.
  lemma PoolKeysCollide(a: JobKey, b: JobKey)
    ensures GetKey(a) == GetKey(b) <==> a.id == b.id && Prefix(a) == Prefix(b)
  {
    if GetKey(a) == GetKey(b) {
      SplitAtLastBackslash(Prefix(a), Decimal(a.id), Prefix(b), Decimal(b.id));
      DecimalInjective(a.id, b.id);
    }
  }

  // A prefix with a single backslash can be read in one way only.
  lemma CleanPrefixIsUnique(a: JobKey, b: JobKey)
    requires CleanKey(a) && Prefix(a) == Prefix(b)
    ensures a.ns == b.ns && a.service == b.service
  {
    var all := Prefix(a);
    assert all[|a.ns|] == '\\' && all[|b.ns|] == '\\';
    assert forall i :: 0 <= i < |a.ns| ==> all[i] == a.ns[i];
    assert forall i :: |a.ns| < i < |all| ==> all[i] == a.service[i - |a.ns| - 1];
    assert a.ns == all[..|a.ns|] == b.ns;
    assert a.service == all[|a.ns| + 1..] == b.service;
  }

  // Another job with the same entry, for a job whose names contain a backslash.
  lemma UncleanKeyCollides(a: JobKey) returns (b: JobKey)
    requires !CleanKey(a)
    ensures b != a && b.id == a.id && Prefix(b) == Prefix(a)
  {
    if !CleanName(a.ns) {
      var i :| 0 <= i < |a.ns| && a.ns[i] == '\\';
      b := JobKey(a.ns[..i], a.ns[i + 1..] + "\\" + a.service, a.id);
      assert a.ns == a.ns[..i] + "\\" + a.ns[i + 1..];
      assert |b.ns| < |a.ns|;
    } else {
      var i :| 0 <= i < |a.service| && a.service[i] == '\\';
      b := JobKey(a.ns + "\\" + a.service[..i], a.service[i + 1..], a.id);
      assert a.service == a.service[..i] + "\\" + a.service[i + 1..];
      assert |b.ns| > |a.ns|;
    }
  }

  // A job has its pool entry to itself exactly when neither of its names contains a backslash.
  lemma PoolEntryIsOwn(a: JobKey)
    ensures (forall b :: GetKey(b) == GetKey(a) ==> b == a) <==> CleanKey(a)
  {
    if CleanKey(a) {
      forall b | GetKey(b) == GetKey(a) ensures b == a {
        PoolKeysCollide(a, b);
        CleanPrefixIsUnique(a, b);
      }
    } else {
      var b := UncleanKeyCollides(a);
      PoolKeysCollide(a, b);
    }
  }

  // For example, two services of different namespaces.
  lemma PoolKeysCanCollide(id: nat)
    ensures var a, b := JobKey("x\\y", "z", id), JobKey("x", "y\\z", id);
            a != b && GetKey(a) == GetKey(b)
  {
    var a, b := JobKey("x\\y", "z", id), JobKey("x", "y\\z", id);
    assert Prefix(a) == Prefix(b);
    PoolKeysCollide(a, b);
    assert |a.ns| != |b.ns|;
  }

  datatype Reaction =
    | Ignore
    | Configure(key: JobKey)
    | Confirm(key: JobKey)
    | Restart(key: JobKey)

  // Believe mode: the host whose report triggered the event confirms on behalf of the user.
  predicate Confirms(host: Host, job: Job, trigger: Host) {
    job.believe && trigger == host
  }

  function React(pool: map<string, JobKey>, host: Host, e: Event): Reaction {
    match e
    case JobCreated(job) =>
      if GetKey(job.key) in pool || host !in job.configuration then Ignore else Configure(job.key)
    case AllHostConfigured(job, trigger) =>
      if Confirms(host, job, trigger) then Confirm(job.key) else Ignore
    case ServiceRestarted(job, trigger) =>
      if job.status != Deployed && Confirms(host, job, trigger) then Confirm(job.key) else Ignore
    case RestartConfirmed(job, target, step) =>
      if GetKey(job.key) in pool && target == host then Restart(pool[GetKey(job.key)]) else Ignore
    case _ => Ignore
  }

  // An event that the host whose report triggered it answers with a confirmation, in believe mode.
  predicate AsksForMore(e: Event) {
    (e.AllHostConfigured? || (e.ServiceRestarted? && e.job.status != Deployed)) && e.job.believe
  }

  // What makes a host do what: it configures what it does not know yet and is part of, it confirms
  // when it is the trigger, and it restarts what it knows when it is the target.
  lemma ReactsExactly(pool: map<string, JobKey>, host: Host, e: Event)
    ensures var r := React(pool, host, e);
            && (r.Configure? <==> e.JobCreated? && GetKey(e.job.key) !in pool && host in e.job.configuration)
            && (r.Configure? ==> r.key == e.job.key)
            && (r.Confirm? <==> AsksForMore(e) && e.trigger == host)
            && (r.Confirm? ==> r.key == e.job.key)
            && (r.Restart? <==> e.RestartConfirmed? && GetKey(e.job.key) in pool && e.target == host)
            && (r.Restart? ==> r.key == pool[GetKey(e.job.key)])
  {
  }

  function PoolAfter(pool: map<string, JobKey>, r: Reaction): map<string, JobKey> {
    if r.Configure? then pool[GetKey(r.key) := r.key] else pool
  }

  // The same decision taken on the jobs themselves, with no strings in between.
  function Decide(known: set<JobKey>, host: Host, e: Event): Reaction {
    match e
    case JobCreated(job) =>
      if job.key in known || host !in job.configuration then Ignore else Configure(job.key)
    case AllHostConfigured(job, trigger) =>
      if Confirms(host, job, trigger) then Confirm(job.key) else Ignore
    case ServiceRestarted(job, trigger) =>
      if job.status != Deployed && Confirms(host, job, trigger) then Confirm(job.key) else Ignore
    case RestartConfirmed(job, target, step) =>
      if job.key in known && target == host then Restart(job.key) else Ignore
    case _ => Ignore
  }

  lemma DecidesExactly(known: set<JobKey>, host: Host, e: Event)
    ensures var r := Decide(known, host, e);
            && (r.Configure? <==> e.JobCreated? && e.job.key !in known && host in e.job.configuration)
            && (r.Confirm? <==> AsksForMore(e) && e.trigger == host)
            && (r.Restart? <==> e.RestartConfirmed? && e.job.key in known && e.target == host)
            && (r != Ignore ==> r.key == e.job.key)
  {
  }

  function KnownAfter(known: set<JobKey>, r: Reaction): set<JobKey> {
    if r.Configure? then known + {r.key} else known
  }

  // A string-keyed pool that stands for a set of jobs.
  ghost predicate Represents(pool: map<string, JobKey>, known: set<JobKey>) {
    && (forall k :: k in known ==> CleanKey(k) && GetKey(k) in pool && pool[GetKey(k)] == k)
    && (forall x :: x in pool ==> pool[x] in known && GetKey(pool[x]) == x)
  }

  predicate CleanEvent(e: Event) {
    e.JobFailed? || CleanKey(e.job.key)
  }

  lemma PoolEntry(pool: map<string, JobKey>, known: set<JobKey>, k: JobKey)
    requires Represents(pool, known) && CleanKey(k)
    ensures GetKey(k) in pool <==> k in known
    ensures k in known ==> pool[GetKey(k)] == k
  {
    if GetKey(k) in pool {
      PoolEntryIsOwn(k);
    }
  }

  // On names without a backslash the string-keyed pool decides as the set of jobs does, and goes
  // on standing for it.
  lemma PoolDecidesLikeKnown(pool: map<string, JobKey>, known: set<JobKey>, host: Host, e: Event)
    requires Represents(pool, known) && CleanEvent(e)
    ensures React(pool, host, e) == Decide(known, host, e)
    ensures Represents(PoolAfter(pool, React(pool, host, e)), KnownAfter(known, Decide(known, host, e)))
  {
    if e.JobCreated? || e.RestartConfirmed? {
      var k := e.job.key;
      PoolEntry(pool, known, k);
      if React(pool, host, e).Configure? {
        var after := pool[GetKey(k) := k];
        forall j | j in known + {k} ensures CleanKey(j) && GetKey(j) in after && after[GetKey(j)] == j {
          if j != k { PoolEntryIsOwn(k); }
        }
      }
    }
  }

  // The result of a sub-job's `Execute`.
  datatype Result = Succeeded | Errored(canceled: bool)

  function ConfigurationVerdict(result: Result): (status: ConfigurationStatus)
    ensures status == ConfigurationSuccess <==> result == Succeeded
    ensures status == ConfigurationFailed <==> result == Errored(false)
    ensures status == ConfigurationCancelled <==> result == Errored(true)
  {
    match result
    case Succeeded => ConfigurationSuccess
    case Errored(canceled) => if canceled then ConfigurationCancelled else ConfigurationFailed
  }

  function DeploymentVerdict(result: Result): (status: DeploymentStatus)
    ensures status == DeploymentSuccess <==> result == Succeeded
    ensures status == DeploymentFailed <==> result == Errored(false)
    ensures status == DeploymentTimeOut <==> result == Errored(true)
  {
    match result
    case Succeeded => DeploymentSuccess
    case Errored(canceled) => if canceled then DeploymentTimeOut else DeploymentFailed
  }

  // A report that ends a restart, as opposed to the one that announces it.
  predicate Verdict(status: DeploymentStatus) {
    status == DeploymentSuccess || status == DeploymentFailed || status == DeploymentTimeOut
  }

  // Everything the consumer publishes while it handles one event.
  function Published(host: Host, r: Reaction, result: Result): seq<Command> {
    match r
    case Ignore => []
    case Configure(_) => []
    case Confirm(key) => [RestartConfirmation(key)]
    case Restart(key) => [RestartServiceUpdate(key, host, DeploymentRestarting),
                          RestartServiceUpdate(key, host, DeploymentVerdict(result))]
  }

  // Everything a configuration task publishes.
  function TaskReports(host: Host, key: JobKey, result: Result): seq<Command> {
    [ConfigurationUpdate(key, host, ConfigurationRunning), ConfigurationUpdate(key, host, ConfigurationVerdict(result))]
  }

  function Started(r: Reaction): seq<JobKey> {
    if r.Configure? then [r.key] else []
  }

  // The jobs whose context an event cancels.
  function Cancels(pool: map<string, JobKey>, e: Event): set<JobKey> {
    if e.JobCancelled? && GetKey(e.job.key) in pool then {pool[GetKey(e.job.key)]} else {}
  }

  datatype Trail = Trail(
    pool: map<string, JobKey>,
    started: seq<JobKey>,
    published: seq<Command>,
    cancelled: set<JobKey>)

  function OneMore(t: Trail, host: Host, e: Event, result: Result): Trail {
    var r := React(t.pool, host, e);
    Trail(PoolAfter(t.pool, r),
          t.started + Started(r),
          t.published + Published(host, r, result),
          t.cancelled + Cancels(t.pool, e))
  }

  // One turn of the consumer, event by event.
  lemma ConsumesExactly(t: Trail, host: Host, e: Event, result: Result)
    ensures var after := OneMore(t, host, e, result);
            match e
            case JobCreated(job) =>
              after == if GetKey(job.key) in t.pool || host !in job.configuration then t
                       else t.(pool := t.pool[GetKey(job.key) := job.key], started := t.started + [job.key])
            case JobCancelled(job) =>
              after == if GetKey(job.key) !in t.pool then t
                       else t.(cancelled := t.cancelled + {t.pool[GetKey(job.key)]})
            case RestartConfirmed(job, target, _) =>
              after == if GetKey(job.key) !in t.pool || target != host then t
                       else
                         var key := t.pool[GetKey(job.key)];
                         var last := if result == Succeeded then DeploymentSuccess
                                     else if result == Errored(false) then DeploymentFailed
                                     else DeploymentTimeOut;
                         t.(published := t.published + [RestartServiceUpdate(key, host, DeploymentRestarting),
                                                        RestartServiceUpdate(key, host, last)])
            case _ =>
              after == if !e.JobFailed? && AsksForMore(e) && e.trigger == host then
                         t.(published := t.published + [RestartConfirmation(e.job.key)])
                       else t
  {
  }

  // The whole consumer loop over a finite run of events.
  function Consume(start: Trail, host: Host, events: seq<Event>, results: seq<Result>): Trail
    requires |results| == |events|
  {
    if events == [] then start
    else
      var n := |events| - 1;
      OneMore(Consume(start, host, events[..n], results[..n]), host, events[n], results[n])
  }

  // The pool alone, which does not depend on how the restarts end.
  function PoolFrom(host: Host, events: seq<Event>): map<string, JobKey> {
    if events == [] then map[]
    else
      var before := PoolFrom(host, events[..|events| - 1]);
      PoolAfter(before, React(before, host, events[|events| - 1]))
  }

  lemma {:induction false} ConsumedPool(start: Trail, host: Host, events: seq<Event>, results: seq<Result>)
    requires |results| == |events| && start.pool == map[]
    ensures Consume(start, host, events, results).pool == PoolFrom(host, events)
  {
    if events != [] {
      var n := |events| - 1;
      ConsumedPool(start, host, events[..n], results[..n]);
    }
  }

  // A configuration task, which runs in the background.
  class DeploymentJob {
    const key: JobKey
    const host: Host
    var status: ConfigurationStatus
    var published: seq<Command>

    constructor (key: JobKey, host: Host)
      ensures this.key == key && this.host == host && published == []
    {
      this.key, this.host, status, published := key, host, ConfigurationPending, [];
    }

    // Reports, executes, reports; `result` is what `Execute` returns.  Errors of publishing are
    // passed over.
    method StartConfigureHost(result: Result)
      modifies this
      ensures published == old(published) + TaskReports(host, key, result)
      ensures status == ConfigurationVerdict(result)
      ensures published == old(published) +
                [ConfigurationUpdate(key, host, ConfigurationRunning), ConfigurationUpdate(key, host, status)]
      ensures result == Succeeded ==> status == ConfigurationSuccess
      ensures result == Errored(false) ==> status == ConfigurationFailed
      ensures result == Errored(true) ==> status == ConfigurationCancelled
    {
      published := published + [ConfigurationUpdate(key, host, ConfigurationRunning)];
      status := ConfigurationPending;
      match result {
        case Succeeded => status := ConfigurationSuccess;
        case Errored(canceled) =>
          status := ConfigurationFailed;
          if canceled {
            status := ConfigurationCancelled;
          }
      }
      published := published + [ConfigurationUpdate(key, host, status)];
    }
  }

  class JobsController {
    const host: Host
    var deploymentJobPool: map<string, JobKey>
    var started: seq<JobKey>      // configuration tasks put in the background
    var published: seq<Command>   // commands handed to Raft by the consumer, in order
    var cancelled: set<JobKey>    // jobs whose context has been cancelled

    constructor (host: Host)
      ensures this.host == host && Done() == Trail(map[], [], [], {})
    {
      this.host := host;
      deploymentJobPool, started, published, cancelled := map[], [], [], {};
    }

    // The pool, and all that has been done so far.
    function Done(): Trail
      reads this
    {
      Trail(deploymentJobPool, started, published, cancelled)
    }

    method Publish(c: Command)
      modifies this`published
      ensures published == old(published) + [c]
    {
      published := published + [c];
    }

    method ConfigureHost(job: Job)
      modifies this`deploymentJobPool, this`started
      ensures var r := React(old(deploymentJobPool), host, JobCreated(job));
              && deploymentJobPool == PoolAfter(old(deploymentJobPool), r)
              && started == old(started) + Started(r)
      ensures var starts := GetKey(job.key) !in old(deploymentJobPool) && host in job.configuration;
              && started == old(started) + (if starts then [job.key] else [])
              && deploymentJobPool ==
                   if starts then old(deploymentJobPool)[GetKey(job.key) := job.key] else old(deploymentJobPool)
    {
      if GetKey(job.key) in deploymentJobPool {
        return;
      }
      if host !in job.configuration {
        return;
      }
      deploymentJobPool := deploymentJobPool[GetKey(job.key) := job.key];
      started := started + [job.key];
    }

    method CancelDeployment(job: Job)
      modifies this`cancelled
      ensures cancelled == old(cancelled) + Cancels(deploymentJobPool, JobCancelled(job))
      ensures cancelled == old(cancelled) +
                if GetKey(job.key) in deploymentJobPool then {deploymentJobPool[GetKey(job.key)]} else {}
    {
      if GetKey(job.key) !in deploymentJobPool {
        return;
      }
      cancelled := cancelled + {deploymentJobPool[GetKey(job.key)]};
    }

    method ConfirmDeploymentAsUserIfEnabled(job: Job, trigger: Host)
      modifies this`published
      ensures published == old(published) +
              Published(host, React(deploymentJobPool, host, AllHostConfigured(job, trigger)), Succeeded)
      ensures published == old(published) +
                if job.believe && trigger == host then [RestartConfirmation(job.key)] else []
    {
      if !job.believe {
        return;
      }
      if trigger != host {
        return;
      }
      Publish(RestartConfirmation(job.key));
    }

    method ContinueRestartServiceAsUserIfEnabled(job: Job, trigger: Host)
      modifies this`published
      ensures published == old(published) +
              Published(host, React(deploymentJobPool, host, ServiceRestarted(job, trigger)), Succeeded)
      ensures published == old(published) +
                if job.status != Deployed && job.believe && trigger == host then [RestartConfirmation(job.key)] else []
    {
      if job.status == Deployed {
        return;
      }
      if !job.believe {
        return;
      }
      if trigger != host {
        return;
      }
      Publish(RestartConfirmation(job.key));
    }

    // Runs in the consumer itself, not in the background: the next event waits for the verdict.
    method StartRestartHostService(key: JobKey, result: Result)
      modifies this`published
      ensures published == old(published) + Published(host, Restart(key), result)
      ensures var last := if result == Succeeded then DeploymentSuccess
                          else if result == Errored(false) then DeploymentFailed
                          else DeploymentTimeOut;
              published == old(published) +
                [RestartServiceUpdate(key, host, DeploymentRestarting), RestartServiceUpdate(key, host, last)]
    {
      var status := DeploymentRestarting;
      Publish(RestartServiceUpdate(key, host, status));
      match result {
        case Succeeded => status := DeploymentSuccess;
        case Errored(canceled) =>
          status := DeploymentFailed;
          if canceled {
            status := DeploymentTimeOut;
          }
      }
      Publish(RestartServiceUpdate(key, host, status));
    }

    method RestartService(job: Job, target: Host, step: nat, result: Result)
      modifies this`published
      ensures published == old(published) +
              Published(host, React(deploymentJobPool, host, RestartConfirmed(job, target, step)), result)
      ensures GetKey(job.key) !in deploymentJobPool || target != host ==> published == old(published)
      ensures GetKey(job.key) in deploymentJobPool && target == host ==>
                && |published| == |old(published)| + 2 && old(published) <= published
                && var key := deploymentJobPool[GetKey(job.key)];
                   && published[|old(published)|] == RestartServiceUpdate(key, host, DeploymentRestarting)
                   && published[|old(published)| + 1] == RestartServiceUpdate(key, host, DeploymentVerdict(result))
    {
      if GetKey(job.key) !in deploymentJobPool {
        return;
      }
      if target == host {
        StartRestartHostService(deploymentJobPool[GetKey(job.key)], result);
      }
    }

    // `result` is what `Execute` returns if the event starts a restart.
    method HandleEvent(e: Event, result: Result)
      modifies this
      ensures Done() == OneMore(old(Done()), host, e, result)
    {
      match e {
        case JobCreated(job) => ConfigureHost(job);
        case JobCancelled(job) => CancelDeployment(job);
        case RestartConfirmed(job, target, step) => RestartService(job, target, step, result);
        case AllHostConfigured(job, trigger) => ConfirmDeploymentAsUserIfEnabled(job, trigger);
        case ServiceRestarted(job, trigger) => ContinueRestartServiceAsUserIfEnabled(job, trigger);
        case _ =>
      }
    }

    method StartConsumer(events: seq<Event>, results: seq<Result>)
      requires |results| == |events|
      modifies this
      ensures Done() == Consume(old(Done()), host, events, results)
    {
      for i := 0 to |events|
        invariant Done() == Consume(old(Done()), host, events[..i], results[..i])
      {
        ConsumeOneMore(old(Done()), host, events, results, i);
        HandleEvent(events[i], results[i]);
      }
      assert events[..|events|] == events && results[..|results|] == results;
    }
  }

  lemma {:induction false} ConsumeOneMore(start: Trail, host: Host, events: seq<Event>, results: seq<Result>, i: nat)
    requires |results| == |events| && i < |events|
    ensures Consume(start, host, events[..i + 1], results[..i + 1])
         == OneMore(Consume(start, host, events[..i], results[..i]), host, events[i], results[i])
  {
    assert events[..i + 1][..i] == events[..i] && results[..i + 1][..i] == results[..i];
  }

  // Every started task has its pool entry, and had none before.
  ghost predicate StartedOnce(pool: map<string, JobKey>, t: Trail) {
    && Distinct(t.started)
    && pool.Keys <= t.pool.Keys
    && forall k :: k in t.started ==> GetKey(k) !in pool && GetKey(k) in t.pool
  }

  lemma OneMoreStartsOnce(pool: map<string, JobKey>, t: Trail, host: Host, e: Event, result: Result)
    requires StartedOnce(pool, t)
    ensures StartedOnce(pool, OneMore(t, host, e, result))
  {
    var r := React(t.pool, host, e);
    if r.Configure? {
      assert r.key !in t.started;
    }
  }

  // The pool remembers every task it ever started, so no job key is configured twice, however
  // often its creation is announced.
  lemma {:induction false} ConfiguresOnce(start: Trail, host: Host, events: seq<Event>, results: seq<Result>)
    requires |results| == |events| && start.started == []
    ensures StartedOnce(start.pool, Consume(start, host, events, results))
  {
    if events != [] {
      var n := |events| - 1;
      ConfiguresOnce(start, host, events[..n], results[..n]);
      OneMoreStartsOnce(start.pool, Consume(start, host, events[..n], results[..n]), host, events[n], results[n]);
    }
  }
}
