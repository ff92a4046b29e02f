/**
 The values that travel between the deployment state machine and the hosts: jobs, commands and
 events.  Jobs are plain values here because every handler works on its own decoded copy of a job.
 */
module Entities {

  datatype Option<+T> = None | Some(value: T)

  type Host = string

  datatype JobStatus =
    | Queued
    | Configuring
    | Configured
    | Deploying
    | Deployed
    | Success
    | Cancelled
    | TimeOut
    | Failed

  datatype ConfigurationStatus =
    | ConfigurationPending
    | ConfigurationRunning
    | ConfigurationSuccess
    | ConfigurationFailed
    | ConfigurationCancelled
    | ConfigurationTimeOut

  datatype DeploymentStatus =
    | DeploymentPending
    | DeploymentStarting
    | DeploymentDrainTraffic
    | DeploymentRestarting
    | DeploymentWaitReady
    | DeploymentRoutingTraffic
    | DeploymentSuccess
    | DeploymentFailed
    | DeploymentTimeOut

  // Jobs are stored per namespace and service under an incremental id.
  datatype JobKey = JobKey(ns: string, service: string, id: nat)

  datatype Job = Job(
    key: JobKey,
    status: JobStatus,
    believe: bool,
    order: seq<Host>,
    cursor: Option<nat>,
    deployment: map<Host, DeploymentStatus>,
    configuration: map<Host, ConfigurationStatus>)

  datatype Target = Target(host: Host, replicaId: nat)

  // `serviceNs` is the namespace inside the service definition; the job itself is filed under `ns`.
  datatype SubmitRequest = SubmitRequest(
    ns: string,
    serviceNs: string,
    service: string,
    targets: seq<Target>,
    believe: bool)

  datatype Command =
    | SubmitJob(request: SubmitRequest)
    | CancelJob(key: JobKey)
    | ConfigurationUpdate(key: JobKey, host: Host, configuration: ConfigurationStatus)
    | RestartConfirmation(key: JobKey)
    | RestartServiceUpdate(key: JobKey, host: Host, deployment: DeploymentStatus)

  // Every event but JobFailed carries a snapshot of the job.
  datatype Event =
    | JobCreated(job: Job)
    | JobCancelled(job: Job)   // handled by hosts, broadcast by nobody
    | HostConfigured(job: Job, trigger: Host)
    | AllHostConfigured(job: Job, trigger: Host)
    | RestartConfirmed(job: Job, target: Host, step: nat)
    | ServiceUpdated(job: Job, trigger: Host)
    | ServiceRestarted(job: Job, trigger: Host)
    | AllServiceRestarted(job: Job, trigger: Host)
    | JobFailed

  predicate Distinct<T(==)>(s: seq<T>) {
    forall i, j :: 0 <= i < j < |s| ==> s[i] != s[j]
  }

  function Elements<T(==)>(s: seq<T>): set<T> {
    set x | x in s
  }

  // How many different elements a sequence has.
  function Variety<T(==)>(s: seq<T>): nat {
    if s == [] then 0 else Variety(s[1..]) + if s[0] in s[1..] then 0 else 1
  }

  lemma {:induction false} VarietyIsCount<T>(s: seq<T>)
    ensures Variety(s) == |Elements(s)|
  {
    if s == [] {
      assert Elements(s) == {};
    } else {
      VarietyIsCount(s[1..]);
      assert s == [s[0]] + s[1..];
      assert Elements(s) == {s[0]} + Elements(s[1..]);
      if s[0] in s[1..] {
        assert Elements(s) == Elements(s[1..]);
      }
    }
  }

  // Never more than there are places, and as many exactly when nothing repeats.
  lemma {:induction false} VarietyBound<T>(s: seq<T>)
    ensures Variety(s) <= |s|
    ensures Variety(s) == |s| <==> Distinct(s)
  {
    if s != [] {
      VarietyBound(s[1..]);
      assert forall i :: 0 <= i < |s| - 1 ==> s[1..][i] == s[i + 1];
      if s[0] in s[1..] {
        var k :| 0 <= k < |s| - 1 && s[1..][k] == s[0];
        assert s[0] == s[k + 1];
      } else if Distinct(s[1..]) {
        forall i, j | 0 <= i < j < |s| ensures s[i] != s[j] {
          assert s[j] == s[1..][j - 1];
          if i > 0 { assert s[i] == s[1..][i - 1]; }
        }
      }
    }
  }
}
