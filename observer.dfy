/**
 * The observer: one pass of reads against the Kubernetes API that fills in
 * what currently exists for a cluster, and, for a job cluster, finds the
 * Flink job ID, either from the cluster's persisted status or by asking the
 * Flink REST API.
 *
 * The Kubernetes client is a `Gateway` of lookup functions, and the REST
 * call a `prober` from URL to the decoded job list (None when the request or
 * the read fails). `ObserveSpec` and `ObserveJobSpec` describe a pass as a
 * function of the gateway, the prober and the state before it. The methods of
 * `ClusterStateObserver` fill an `ObservedClusterState` in place and are
 * proved to end in the state those functions describe.
 */
module Observer {
  import opened Wrappers
  import opened Text
  import opened Resources
  import opened Naming
  import opened FlinkProperties
  import Converter

  /** The outcome of one read: the object, NotFound, or any other failure. */
  datatype Lookup<T> = Found(value: T) | NotFound | OtherError(message: string)

  datatype NamespacedName = NamespacedName(namespace: string, name: string)

  /** The reads the observer makes; listing pods takes a namespace and a label selector. */
  datatype Gateway = Gateway(
    getCluster: NamespacedName -> Lookup<FlinkCluster>,
    getDeployment: NamespacedName -> Lookup<Deployment>,
    getService: NamespacedName -> Lookup<Service>,
    getJob: NamespacedName -> Lookup<Job>,
    listPods: (string, map<string, string>) -> Lookup<seq<Pod>>)

  /** One entry of the job list the Flink REST API returns at `/jobs`. */
  datatype FlinkJobEntry = FlinkJobEntry(id: string, status: string)

  type Prober = string -> Option<seq<FlinkJobEntry>>

  /** What a pass has found so far; None is an absent object. */
  datatype Observation = Observation(
    cluster: Option<FlinkCluster>,
    jmDeployment: Option<Deployment>,
    jmService: Option<Service>,
    tmDeployment: Option<Deployment>,
    job: Option<Job>,
    jobPod: Option<Pod>,
    flinkJobId: Option<string>)

  const EmptyObservation := Observation(None, None, None, None, None, None, None)

  datatype ObserveError = LookupError(message: string) | MultipleJobPods(count: nat)

  /** The end of a pass: the state, the error it returns, and the URL it probed, if any. */
  datatype Pass = Pass(state: Observation, error: Option<ObserveError>, probed: Option<string>)

  // ---------------------------------------------------------------- what is read

  function ClusterKey(request: NamespacedName): NamespacedName { request }

  function JobManagerDeploymentKey(request: NamespacedName): NamespacedName {
    NamespacedName(request.namespace, JobManagerDeploymentName(request.name))
  }

  function JobManagerServiceKey(request: NamespacedName): NamespacedName {
    NamespacedName(request.namespace, JobManagerServiceName(request.name))
  }

  function TaskManagerDeploymentKey(request: NamespacedName): NamespacedName {
    NamespacedName(request.namespace, TaskManagerDeploymentName(request.name))
  }

  function JobKey(request: NamespacedName): NamespacedName {
    NamespacedName(request.namespace, JobName(request.name))
  }

  /**
   * The address of the Flink REST API's job list behind the JobManager
   * service: plain HTTP to the service's host name, path `/jobs`.
   */
  function ProbeUrl(service: Service, uiPort: int32): (r: string)
    ensures |r| > 7 + |service.meta.name| + 5
    ensures r[..7] == "http://" && r[7..7 + |service.meta.name|] == service.meta.name
    ensures r[|r| - 5..] == "/jobs"
  {
    "http://" + service.meta.name + "." + service.meta.namespace + ".svc.cluster.local:"
      + IntToDecimal(uiPort as int) + "/jobs"
  }

  /** The job ID a probe yields: the first entry's, and none for a failed probe or an empty list. */
  function FirstJobId(response: Option<seq<FlinkJobEntry>>): (id: Option<string>)
    ensures id.Some? <==> response.Some? && |response.value| > 0
    ensures id.Some? ==> id.value == response.value[0].id
  {
    if response.Some? && |response.value| > 0 then Some(response.value[0].id) else None
  }

  /**
   * The job counts as created once both the job and its pod are observed
   * and the pod is past Pending with a known phase: a running, succeeded or
   * failed pod counts, a pending or unknown one does not.
   */
  function IsJobCreated(observedJob: Option<Job>, jobPod: Option<Pod>): (r: bool)
    ensures r ==> observedJob.Some? && jobPod.Some?
    ensures observedJob.Some? && jobPod.Some? && jobPod.value.phase in {"Running", "Succeeded", "Failed"} ==> r
    ensures jobPod.Some? && jobPod.value.phase in {"Pending", "Unknown"} ==> !r
  {
    observedJob.Some? && jobPod.Some? && jobPod.value.phase != "Pending" && jobPod.value.phase != "Unknown"
  }

  /** The cluster's status already records a job ID; an empty ID counts as none. */
  function HasPersistedJobId(cluster: FlinkCluster): (r: bool)
    ensures r ==> cluster.status.job.Some? && cluster.status.job.value.id != ""
    ensures cluster.status.job.Some? && cluster.status.job.value.id != "" ==> r
  {
    cluster.status.job.Some? && |cluster.status.job.value.id| > 0
  }

  // ---------------------------------------------------------------- one pass, as functions

  /** A field after a lookup that did not fail: what was found, or else what was there. */
  function Merge<T>(lookup: Lookup<T>, previous: Option<T>): Option<T> {
    if lookup.Found? then Some(lookup.value) else previous
  }

  /**
   * Found replaces what was there, NotFound keeps it, any other failure is
   * an error carrying the lookup's message. A success never loses an object
   * the field held, and never invents one: what it holds was either found or
   * already there.
   */
  function Absorb<T>(lookup: Lookup<T>, previous: Option<T>): (r: Result<Option<T>, ObserveError>)
    ensures r.Failure? <==> lookup.OtherError?
    ensures r.Failure? ==> r.error == LookupError(lookup.message)
    ensures r.Success? && previous.Some? ==> r.value.Some?
    ensures r.Success? && r.value.Some? ==> r.value == previous || lookup == Found(r.value.value)
    ensures r.Success? && lookup.Found? ==> r.value == Some(lookup.value)
  {
    if lookup.OtherError? then Failure(LookupError(lookup.message)) else Success(Merge(lookup, previous))
  }

  function ObserveSpec(gateway: Gateway, prober: Prober, request: NamespacedName, s: Observation): (p: Pass)
    ensures p.error.Some? ==> p.probed.None?
  {
    var cluster := Absorb(gateway.getCluster(ClusterKey(request)), s.cluster);
    if cluster.Failure? then Pass(s, Some(cluster.error), None) else
    var s1 := s.(cluster := cluster.value);
    var jmDeployment := Absorb(gateway.getDeployment(JobManagerDeploymentKey(request)), s1.jmDeployment);
    if jmDeployment.Failure? then Pass(s1, Some(jmDeployment.error), None) else
    var s2 := s1.(jmDeployment := jmDeployment.value);
    var jmService := Absorb(gateway.getService(JobManagerServiceKey(request)), s2.jmService);
    if jmService.Failure? then Pass(s2, Some(jmService.error), None) else
    var s3 := s2.(jmService := jmService.value);
    var tmDeployment := Absorb(gateway.getDeployment(TaskManagerDeploymentKey(request)), s3.tmDeployment);
    if tmDeployment.Failure? then Pass(s3, Some(tmDeployment.error), None) else
    var s4 := s3.(tmDeployment := tmDeployment.value);
    ObserveJobSpec(gateway, prober, request, s4)
  }

  function ObserveJobSpec(gateway: Gateway, prober: Prober, request: NamespacedName, s: Observation): (p: Pass)
    ensures p.error.Some? ==> p.probed.None?
    ensures p.state.cluster == s.cluster && p.state.jmDeployment == s.jmDeployment
    ensures p.state.jmService == s.jmService && p.state.tmDeployment == s.tmDeployment
  {
    if s.cluster.None? || s.cluster.value.spec.job.None? then Pass(s, None, None) else
    var jobLookup := gateway.getJob(JobKey(request));
    if jobLookup.OtherError? then Pass(s, Some(LookupError(jobLookup.message)), None) else
    var observedJob := if jobLookup.Found? then Some(jobLookup.value) else None;
    var s1 := if jobLookup.Found? then s.(job := observedJob) else s;
    var pods := gateway.listPods(request.namespace, JobPodSelector(request.name));
    if pods.OtherError? then Pass(s1, Some(LookupError(pods.message)), None) else
    if pods.Found? && |pods.value| > 1 then Pass(s1, Some(MultipleJobPods(|pods.value|)), None) else
    var s2 := if pods.Found? && |pods.value| == 1 then s1.(jobPod := Some(pods.value[0])) else s1;
    JobIdSpec(prober, s2, observedJob)
  }

  /** The last step of the job pass; it never fails and never clears a job ID. */
  function JobIdSpec(prober: Prober, s: Observation, observedJob: Option<Job>): (p: Pass)
    requires s.cluster.Some?
    ensures p.error.None?
    ensures p.state == s.(flinkJobId := p.state.flinkJobId)
    ensures s.flinkJobId.Some? ==> p.state.flinkJobId.Some?
  {
    var cluster := s.cluster.value;
    if HasPersistedJobId(cluster) then Pass(s.(flinkJobId := Some(cluster.status.job.value.id)), None, None)
    else if IsJobCreated(observedJob, s.jobPod) && s.jmService.Some? then
      var url := ProbeUrl(s.jmService.value, cluster.spec.jobManager.ports.ui);
      var id := FirstJobId(prober(url));
      Pass(if id.Some? then s.(flinkJobId := id) else s, None, Some(url))
    else Pass(s, None, None)
  }

  function Probes(p: Pass): seq<string> {
    if p.probed.Some? then [p.probed.value] else []
  }

  // ---------------------------------------------------------------- the observer objects

  /** The record a pass fills in place. */
  class ObservedClusterState {
    var cluster: Option<FlinkCluster>
    var jmDeployment: Option<Deployment>
    var jmService: Option<Service>
    var tmDeployment: Option<Deployment>
    var job: Option<Job>
    var jobPod: Option<Pod>
    var flinkJobId: Option<string>

    constructor ()
      ensures Snapshot() == EmptyObservation
    {
      cluster, jmDeployment, jmService, tmDeployment := None, None, None, None;
      job, jobPod, flinkJobId := None, None, None;
    }

    function Snapshot(): Observation
      reads this
    {
      Observation(cluster, jmDeployment, jmService, tmDeployment, job, jobPod, flinkJobId)
    }
  }

  class ClusterStateObserver {
    const gateway: Gateway
    const request: NamespacedName
    const prober: Prober
    /** The URLs the REST API was asked at, in order. */
    ghost var probeLog: seq<string>

    constructor (gateway: Gateway, request: NamespacedName, prober: Prober)
      ensures this.gateway == gateway && this.request == request && this.prober == prober
      ensures probeLog == []
    {
      this.gateway, this.request, this.prober := gateway, request, prober;
      probeLog := [];
    }

    /** Reads the cluster, the JobManager deployment and service, and the TaskManager deployment, then the job. */
    method Observe(state: ObservedClusterState) returns (err: Option<ObserveError>)
      modifies this, state
      ensures var p := ObserveSpec(gateway, prober, request, old(state.Snapshot()));
        state.Snapshot() == p.state && err == p.error && probeLog == old(probeLog) + Probes(p)
    {
      var cluster := gateway.getCluster(ClusterKey(request));
      if cluster.OtherError? {
        return Some(LookupError(cluster.message));
      }
      if cluster.Found? {
        state.cluster := Some(cluster.value);
      }

      var jmDeployment := gateway.getDeployment(JobManagerDeploymentKey(request));
      if jmDeployment.OtherError? {
        return Some(LookupError(jmDeployment.message));
      }
      if jmDeployment.Found? {
        state.jmDeployment := Some(jmDeployment.value);
      }

      var jmService := gateway.getService(JobManagerServiceKey(request));
      if jmService.OtherError? {
        return Some(LookupError(jmService.message));
      }
      if jmService.Found? {
        state.jmService := Some(jmService.value);
      }

      var tmDeployment := gateway.getDeployment(TaskManagerDeploymentKey(request));
      if tmDeployment.OtherError? {
        return Some(LookupError(tmDeployment.message));
      }
      if tmDeployment.Found? {
        state.tmDeployment := Some(tmDeployment.value);
      }

      err := ObserveJob(state);
    }

    /** For a job cluster: reads the job and its pod, then finds the Flink job ID. */
    method ObserveJob(state: ObservedClusterState) returns (err: Option<ObserveError>)
      modifies this, state
      ensures var p := ObserveJobSpec(gateway, prober, request, old(state.Snapshot()));
        state.Snapshot() == p.state && err == p.error && probeLog == old(probeLog) + Probes(p)
    {
      if state.cluster.None? || state.cluster.value.spec.job.None? {
        return None;
      }

      var jobLookup := gateway.getJob(JobKey(request));
      if jobLookup.OtherError? {
        return Some(LookupError(jobLookup.message));
      }
      var observedJob: Option<Job> := None;
      if jobLookup.Found? {
        observedJob := Some(jobLookup.value);
        state.job := observedJob;
      }

      var pods := gateway.listPods(request.namespace, JobPodSelector(request.name));
      if pods.OtherError? {
        return Some(LookupError(pods.message));
      }
      if pods.Found? {
        if |pods.value| == 1 {
          state.jobPod := Some(pods.value[0]);
        } else if |pods.value| > 1 {
          return Some(MultipleJobPods(|pods.value|));
        }
      }

      var cluster := state.cluster.value;
      if HasPersistedJobId(cluster) {
        state.flinkJobId := Some(cluster.status.job.value.id);
      } else if IsJobCreated(observedJob, state.jobPod) && state.jmService.Some? {
        var url := ProbeUrl(state.jmService.value, cluster.spec.jobManager.ports.ui);
        var id := GetFlinkJobID(url);
        if id.Some? {
          state.flinkJobId := id;
        }
      }
      err := None;
    }

    /** Asks the REST API at `url` for its job list and returns the first job's ID. */
    method GetFlinkJobID(url: string) returns (id: Option<string>)
      modifies this
      ensures id == FirstJobId(prober(url))
      ensures probeLog == old(probeLog) + [url]
    {
      probeLog := probeLog + [url];
      var response := prober(url);
      id := None;
      if response.Some? && |response.value| > 0 {
        id := Some(response.value[0].id);
      }
    }
  }

  // ---------------------------------------------------------------- properties of a pass

  /** The object a lookup found, if any. */
  function Present<T>(lookup: Lookup<T>): Option<T> {
    if lookup.Found? then Some(lookup.value) else None
  }

  /** The result of the n-th of the four cluster-level lookups (1: cluster, 2: JobManager deployment, 3: service, 4: TaskManager deployment) is a failure. */
  predicate NthLookupFails(gateway: Gateway, request: NamespacedName, n: nat) {
    || (n == 1 && gateway.getCluster(ClusterKey(request)).OtherError?)
    || (n == 2 && gateway.getDeployment(JobManagerDeploymentKey(request)).OtherError?)
    || (n == 3 && gateway.getService(JobManagerServiceKey(request)).OtherError?)
    || (n == 4 && gateway.getDeployment(TaskManagerDeploymentKey(request)).OtherError?)
  }

  /** Two gateways answer the first n cluster-level lookups alike. */
  predicate SameFirstLookups(g1: Gateway, g2: Gateway, request: NamespacedName, n: nat) {
    && (n >= 1 ==> g1.getCluster(ClusterKey(request)) == g2.getCluster(ClusterKey(request)))
    && (n >= 2 ==> g1.getDeployment(JobManagerDeploymentKey(request)) == g2.getDeployment(JobManagerDeploymentKey(request)))
    && (n >= 3 ==> g1.getService(JobManagerServiceKey(request)) == g2.getService(JobManagerServiceKey(request)))
    && (n >= 4 ==> g1.getDeployment(TaskManagerDeploymentKey(request)) == g2.getDeployment(TaskManagerDeploymentKey(request)))
  }

  predicate ClusterLookupsSucceed(gateway: Gateway, request: NamespacedName) {
    forall n :: 1 <= n <= 4 ==> !NthLookupFails(gateway, request, n)
  }

  /** The position (1 to 4) of the first cluster-level lookup that fails, or 0 when none does. */
  function FirstFailure(gateway: Gateway, request: NamespacedName): (m: nat)
    ensures m <= 4
    ensures m == 0 <==> ClusterLookupsSucceed(gateway, request)
    ensures m > 0 ==> NthLookupFails(gateway, request, m)
    ensures forall k :: 1 <= k < m ==> !NthLookupFails(gateway, request, k)
  {
    if NthLookupFails(gateway, request, 1) then 1
    else if NthLookupFails(gateway, request, 2) then 2
    else if NthLookupFails(gateway, request, 3) then 3
    else if NthLookupFails(gateway, request, 4) then 4
    else 0
  }

  /** The message the n-th cluster-level lookup failed with. */
  function FailureMessage(gateway: Gateway, request: NamespacedName, n: nat): string
    requires NthLookupFails(gateway, request, n)
  {
    if n == 1 then gateway.getCluster(ClusterKey(request)).message
    else if n == 2 then gateway.getDeployment(JobManagerDeploymentKey(request)).message
    else if n == 3 then gateway.getService(JobManagerServiceKey(request)).message
    else gateway.getDeployment(TaskManagerDeploymentKey(request)).message
  }

  /**
   * The lookups run in the order cluster, JobManager deployment, service,
   * TaskManager deployment, and the first failure ends the pass with that
   * lookup's own error: the lookups before it have filled their fields, the
   * failing one and every later field (job, job pod and job ID included)
   * keep what they held, and nothing read after it (later lookups, the job,
   * the REST API) has any effect on the outcome.
   */
  lemma NoLookupAfterFailure(g1: Gateway, g2: Gateway, prober1: Prober, prober2: Prober,
                             request: NamespacedName, s: Observation, n: nat)
    requires 1 <= n <= 4 && NthLookupFails(g1, request, n) && SameFirstLookups(g1, g2, request, n)
    ensures ObserveSpec(g1, prober1, request, s) == ObserveSpec(g2, prober2, request, s)
    ensures var p := ObserveSpec(g1, prober1, request, s);
      var m := FirstFailure(g1, request);
      && 1 <= m <= n
      && p.error == Some(LookupError(FailureMessage(g1, request, m)))
      && p.probed.None?
      && p.state.cluster == (if m > 1 then Merge(g1.getCluster(ClusterKey(request)), s.cluster) else s.cluster)
      && p.state.jmDeployment ==
           (if m > 2 then Merge(g1.getDeployment(JobManagerDeploymentKey(request)), s.jmDeployment) else s.jmDeployment)
      && p.state.jmService ==
           (if m > 3 then Merge(g1.getService(JobManagerServiceKey(request)), s.jmService) else s.jmService)
      && p.state.tmDeployment == s.tmDeployment
      && p.state.job == s.job && p.state.jobPod == s.jobPod && p.state.flinkJobId == s.flinkJobId
  {
  }

  /**
   * When none of the four lookups fails, a found object replaces the field,
   * NotFound leaves the field as it was, and the pass goes on to the job.
   */
  lemma ClusterLookupsFill(gateway: Gateway, prober: Prober, request: NamespacedName, s: Observation)
    requires ClusterLookupsSucceed(gateway, request)
    ensures var p := ObserveSpec(gateway, prober, request, s);
      var cluster := gateway.getCluster(ClusterKey(request));
      var jmDeployment := gateway.getDeployment(JobManagerDeploymentKey(request));
      var jmService := gateway.getService(JobManagerServiceKey(request));
      var tmDeployment := gateway.getDeployment(TaskManagerDeploymentKey(request));
      && p.state.cluster == (if cluster.Found? then Some(cluster.value) else s.cluster)
      && p.state.jmDeployment == (if jmDeployment.Found? then Some(jmDeployment.value) else s.jmDeployment)
      && p.state.jmService == (if jmService.Found? then Some(jmService.value) else s.jmService)
      && p.state.tmDeployment == (if tmDeployment.Found? then Some(tmDeployment.value) else s.tmDeployment)
  {
    assert !NthLookupFails(gateway, request, 1) && !NthLookupFails(gateway, request, 2);
    assert !NthLookupFails(gateway, request, 3) && !NthLookupFails(gateway, request, 4);
  }

  /** On a fresh record, each of the four objects is present exactly when its lookup found it. */
  lemma FreshPassFindsWhatExists(gateway: Gateway, prober: Prober, request: NamespacedName)
    requires ClusterLookupsSucceed(gateway, request)
    ensures var p := ObserveSpec(gateway, prober, request, EmptyObservation);
      && p.state.cluster == Present(gateway.getCluster(ClusterKey(request)))
      && p.state.jmDeployment == Present(gateway.getDeployment(JobManagerDeploymentKey(request)))
      && p.state.jmService == Present(gateway.getService(JobManagerServiceKey(request)))
      && p.state.tmDeployment == Present(gateway.getDeployment(TaskManagerDeploymentKey(request)))
  {
    ClusterLookupsFill(gateway, prober, request, EmptyObservation);
  }

  /** A pass never forgets: what the record held before, it still holds (possibly replaced) after. */
  lemma PassOnlyFills(gateway: Gateway, prober: Prober, request: NamespacedName, s: Observation)
    ensures var p := ObserveSpec(gateway, prober, request, s);
      && (s.cluster.Some? ==> p.state.cluster.Some?)
      && (s.jmDeployment.Some? ==> p.state.jmDeployment.Some?)
      && (s.jmService.Some? ==> p.state.jmService.Some?)
      && (s.tmDeployment.Some? ==> p.state.tmDeployment.Some?)
      && (s.job.Some? ==> p.state.job.Some?)
      && (s.jobPod.Some? ==> p.state.jobPod.Some?)
      && (s.flinkJobId.Some? ==> p.state.flinkJobId.Some?)
  {
    var cluster := Absorb(gateway.getCluster(ClusterKey(request)), s.cluster);
    var jmDeployment := Absorb(gateway.getDeployment(JobManagerDeploymentKey(request)), s.jmDeployment);
    var jmService := Absorb(gateway.getService(JobManagerServiceKey(request)), s.jmService);
    var tmDeployment := Absorb(gateway.getDeployment(TaskManagerDeploymentKey(request)), s.tmDeployment);
    if cluster.Success? && jmDeployment.Success? && jmService.Success? && tmDeployment.Success? {
      var s4 := s.(cluster := cluster.value, jmDeployment := jmDeployment.value,
                   jmService := jmService.value, tmDeployment := tmDeployment.value);
      JobPassOnlyFills(gateway, prober, request, s4);
    }
  }

  lemma JobPassOnlyFills(gateway: Gateway, prober: Prober, request: NamespacedName, s: Observation)
    ensures var p := ObserveJobSpec(gateway, prober, request, s);
      && (s.job.Some? ==> p.state.job.Some?)
      && (s.jobPod.Some? ==> p.state.jobPod.Some?)
      && (s.flinkJobId.Some? ==> p.state.flinkJobId.Some?)
  {
  }

  /** Without a cluster, or for a session cluster (no job spec), the job pass does nothing and succeeds. */
  lemma SessionClusterSkipsJob(gateway: Gateway, prober: Prober, request: NamespacedName, s: Observation)
    requires s.cluster.None? || s.cluster.value.spec.job.None?
    ensures ObserveJobSpec(gateway, prober, request, s) == Pass(s, None, None)
  {
  }

  /** A cluster that is gone (on a fresh record) leaves the job, its pod and the job ID absent, and nothing is probed. */
  lemma DeletedClusterObservesNoJob(gateway: Gateway, prober: Prober, request: NamespacedName)
    requires ClusterLookupsSucceed(gateway, request)
    requires gateway.getCluster(ClusterKey(request)).NotFound?
    ensures var p := ObserveSpec(gateway, prober, request, EmptyObservation);
      p.state.cluster.None? && p.state.job.None? && p.state.jobPod.None? && p.state.flinkJobId.None?
      && p.error.None? && p.probed.None?
  {
    assert !NthLookupFails(gateway, request, 1) && !NthLookupFails(gateway, request, 2);
    assert !NthLookupFails(gateway, request, 3) && !NthLookupFails(gateway, request, 4);
  }

  /** The job lookup comes before the pod list: when it fails, nothing read after it matters. */
  lemma NoPodListAfterJobFailure(g1: Gateway, g2: Gateway, prober1: Prober, prober2: Prober,
                                 request: NamespacedName, s: Observation)
    requires s.cluster.Some? && s.cluster.value.spec.job.Some?
    requires g1.getJob(JobKey(request)).OtherError? && g2.getJob(JobKey(request)) == g1.getJob(JobKey(request))
    ensures ObserveJobSpec(g1, prober1, request, s) == ObserveJobSpec(g2, prober2, request, s)
    ensures ObserveJobSpec(g1, prober1, request, s) == Pass(s, Some(LookupError(g1.getJob(JobKey(request)).message)), None)
  {
  }

  /** The conditions under which the job pass reaches the job ID step. */
  predicate ReachesJobId(gateway: Gateway, request: NamespacedName, s: Observation) {
    && s.cluster.Some? && s.cluster.value.spec.job.Some?
    && !gateway.getJob(JobKey(request)).OtherError?
    && var pods := gateway.listPods(request.namespace, JobPodSelector(request.name));
    && !pods.OtherError? && !(pods.Found? && |pods.value| > 1)
  }

  /**
   * The job pod: none listed leaves the field as it was, exactly one becomes
   * the job pod, and more than one is an error that leaves the pod and the
   * job ID as they were while keeping the job just read.
   */
  lemma JobPodCount(gateway: Gateway, prober: Prober, request: NamespacedName, s: Observation)
    requires s.cluster.Some? && s.cluster.value.spec.job.Some?
    requires !gateway.getJob(JobKey(request)).OtherError?
    requires gateway.listPods(request.namespace, JobPodSelector(request.name)).Found?
    ensures var p := ObserveJobSpec(gateway, prober, request, s);
      var pods := gateway.listPods(request.namespace, JobPodSelector(request.name)).value;
      var job := gateway.getJob(JobKey(request));
      && p.state.job == (if job.Found? then Some(job.value) else s.job)
      && (|pods| == 0 ==> p.state.jobPod == s.jobPod && p.error.None?)
      && (|pods| == 1 ==> p.state.jobPod == Some(pods[0]) && p.error.None?)
      && (|pods| > 1 ==>
            && p.error == Some(MultipleJobPods(|pods|))
            && p.state.jobPod == s.jobPod && p.state.flinkJobId == s.flinkJobId && p.probed.None?)
  {
  }

  /** A job ID already persisted in the cluster's status is reused, and the REST API is not asked. */
  lemma PersistedJobIdReused(gateway: Gateway, prober: Prober, request: NamespacedName, s: Observation)
    requires ReachesJobId(gateway, request, s)
    requires HasPersistedJobId(s.cluster.value)
    ensures var p := ObserveJobSpec(gateway, prober, request, s);
      p.state.flinkJobId == Some(s.cluster.value.status.job.value.id) && p.probed.None? && p.error.None?
  {
  }

  /**
   * Without a persisted ID, the REST API is asked exactly when the job was
   * found in this pass, a job pod is recorded and is past Pending with a
   * known phase, and the JobManager service is recorded; it is asked at the
   * service's `/jobs` address on the UI port. Its answer never fails the
   * pass: the job ID is replaced only when the answer carries one.
   */
  lemma ProbeGate(gateway: Gateway, prober: Prober, request: NamespacedName, s: Observation)
    requires ReachesJobId(gateway, request, s)
    requires !HasPersistedJobId(s.cluster.value)
    ensures var p := ObserveJobSpec(gateway, prober, request, s);
      && p.error.None?
      && (p.probed.Some? <==>
            && gateway.getJob(JobKey(request)).Found?
            && p.state.jobPod.Some?
            && p.state.jobPod.value.phase != "Pending" && p.state.jobPod.value.phase != "Unknown"
            && s.jmService.Some?)
      && (p.probed.Some? ==>
            && p.probed.value == ProbeUrl(s.jmService.value, s.cluster.value.spec.jobManager.ports.ui)
            && p.state.flinkJobId ==
                 (if FirstJobId(prober(p.probed.value)).Some? then FirstJobId(prober(p.probed.value)) else s.flinkJobId))
      && (p.probed.None? ==> p.state.flinkJobId == s.flinkJobId)
  {
  }

  /** A failed or empty answer from the REST API leaves the job ID as it was. */
  lemma FailedProbeKeepsJobId(gateway: Gateway, prober: Prober, request: NamespacedName, s: Observation)
    requires ReachesJobId(gateway, request, s)
    requires !HasPersistedJobId(s.cluster.value)
    requires forall url :: prober(url) == None || prober(url) == Some([])
    ensures var p := ObserveJobSpec(gateway, prober, request, s);
      p.error.None? && p.state.flinkJobId == s.flinkJobId
  {
    ProbeGate(gateway, prober, request, s);
  }

  /**
   * The observer reads back what the converter creates: for the request
   * naming a cluster, each desired resource sits at the key the observer
   * looks it up by; the job pods are listed by the job's labels plus the
   * `job-name` label Kubernetes gives the pods of a job; and the REST API is
   * asked at the desired service's in-cluster DNS name.
   */
  lemma KeysMatchDesiredState(cluster: FlinkCluster, jmPropertiesOrder: seq<string>, tmPropertiesOrder: seq<string>)
    requires IsKeyOrder(jmPropertiesOrder, cluster.spec.flinkProperties)
    requires IsKeyOrder(tmPropertiesOrder, cluster.spec.flinkProperties)
    requires Converter.GetDesiredClusterState(Some(cluster), jmPropertiesOrder, tmPropertiesOrder).Success?
    ensures var request := NamespacedName(cluster.namespace, cluster.name);
      var d := Converter.GetDesiredClusterState(Some(cluster), jmPropertiesOrder, tmPropertiesOrder).value;
      && (d.jmDeployment.Some? ==>
            NamespacedName(d.jmDeployment.value.meta.namespace, d.jmDeployment.value.meta.name) == JobManagerDeploymentKey(request))
      && (d.jmService.Some? ==>
            && NamespacedName(d.jmService.value.meta.namespace, d.jmService.value.meta.name) == JobManagerServiceKey(request)
            && ProbeUrl(d.jmService.value, cluster.spec.jobManager.ports.ui) ==
                 "http://" + JobManagerServiceName(cluster.name) + "." + cluster.namespace + ".svc.cluster.local:"
                 + IntToDecimal(cluster.spec.jobManager.ports.ui as int) + "/jobs")
      && (d.tmDeployment.Some? ==>
            NamespacedName(d.tmDeployment.value.meta.namespace, d.tmDeployment.value.meta.name) == TaskManagerDeploymentKey(request))
      && (d.job.Some? ==>
            && NamespacedName(d.job.value.meta.namespace, d.job.value.meta.name) == JobKey(request)
            && JobPodSelector(request.name) == d.job.value.template.labels["job-name" := d.job.value.meta.name])
  {
    var d := Converter.GetDesiredClusterState(Some(cluster), jmPropertiesOrder, tmPropertiesOrder).value;
    assert d.jmService == Converter.GetDesiredJobManagerService(cluster).value;
    assert d.job == Converter.GetDesiredJob(cluster);
  }
}
