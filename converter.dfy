/**
 * The converter: from the FlinkCluster record (and its lifecycle state) to
 * the four resources that should exist for it. Nothing here has side
 * effects; a resource that should not exist is None.
 *
 * `getFlinkProperties` ranges over a Go map, whose iteration order is
 * unspecified and may differ between the two calls (JobManager and
 * TaskManager), so the builders that embed FLINK_PROPERTIES take the order
 * the map was visited in as a parameter.
 */
module Converter {
  import opened Wrappers
  import opened Resources
  import opened Naming
  import opened FlinkProperties
  import opened JobCommand

  datatype DesiredClusterState = DesiredClusterState(
    jmDeployment: Option<Deployment>,
    jmService: Option<Service>,
    tmDeployment: Option<Deployment>,
    job: Option<Job>)

  /** The converter's one failure: the access-scope switch meets a value it does not know (a panic in Go). */
  datatype ConverterError = UnknownAccessScope(scope: string)

  const LB_TYPE_ANNOTATION := "cloud.google.com/load-balancer-type"

  /**
   * While the cluster is stopping or stopped, its JobManager and TaskManager
   * resources are torn down; every other state, Failed and any unknown state
   * included, keeps them.
   */
  function IsShuttingDown(cluster: FlinkCluster): (r: bool)
    ensures cluster.status.state in {Stopping, Stopped} ==> r
    ensures cluster.status.state in {Creating, Running, Updating, Failed} ==> !r
    ensures cluster.status.state.OtherState? ==> !r
  {
    cluster.status.state == Stopping || cluster.status.state == Stopped
  }

  /** The owner reference every desired resource carries, making the cluster their controller. */
  function ToOwnerReference(cluster: FlinkCluster): (r: OwnerReference)
    ensures r.apiVersion == cluster.apiVersion && r.kind == cluster.kind
    ensures r.name == cluster.name && r.uid == cluster.uid
    ensures r.controller && !r.blockOwnerDeletion
  {
    OwnerReference(cluster.apiVersion, cluster.kind, cluster.name, cluster.uid, true, false)
  }

  function Meta(cluster: FlinkCluster, name: string, labels: map<string, string>): ObjectMeta {
    ObjectMeta(cluster.namespace, name, [ToOwnerReference(cluster)], labels, map[])
  }

  // ---------------------------------------------------------------- JobManager and TaskManager

  datatype Role = JobManagerRole | TaskManagerRole {
    function ContainerName(): string {
      if JobManagerRole? then "jobmanager" else "taskmanager"
    }
    function EnvPrefix(): string {
      if JobManagerRole? then "JOB_MANAGER" else "TASK_MANAGER"
    }
  }

  /**
   * The environment of a JobManager or TaskManager container: where the
   * JobManager is, the container's own CPU (in millicores) and memory (in
   * MiB) limits, the properties blob, then the cluster's env vars.
   */
  function ProcessEnv(role: Role, cluster: FlinkCluster, propertiesOrder: seq<string>): (r: seq<EnvVar>)
    requires IsKeyOrder(propertiesOrder, cluster.spec.flinkProperties)
    ensures |r| == 4 + |cluster.spec.envVars| && r[4..] == cluster.spec.envVars
    ensures r[3].value == PropertiesText(cluster.spec.flinkProperties, propertiesOrder)
  {
    [ EnvVar("JOB_MANAGER_RPC_ADDRESS", JobManagerDeploymentName(cluster.name), None),
      EnvVar(role.EnvPrefix() + "_CPU_LIMIT", "", Some(ResourceFieldRef(role.ContainerName(), "limits.cpu", "1m"))),
      EnvVar(role.EnvPrefix() + "_MEMORY_LIMIT", "", Some(ResourceFieldRef(role.ContainerName(), "limits.memory", "1Mi"))),
      EnvVar("FLINK_PROPERTIES", PropertiesText(cluster.spec.flinkProperties, propertiesOrder), None)
    ] + cluster.spec.envVars
  }

  function JobManagerContainerPorts(ports: JobManagerPorts): seq<ContainerPort> {
    [ContainerPort("rpc", ports.rpc), ContainerPort("blob", ports.blob),
     ContainerPort("query", ports.query), ContainerPort("ui", ports.ui)]
  }

  function TaskManagerContainerPorts(ports: TaskManagerPorts): seq<ContainerPort> {
    [ContainerPort("data", ports.data), ContainerPort("rpc", ports.rpc), ContainerPort("query", ports.query)]
  }

  function GetDesiredJobManagerDeployment(cluster: FlinkCluster, propertiesOrder: seq<string>): (r: Option<Deployment>)
    requires IsKeyOrder(propertiesOrder, cluster.spec.flinkProperties)
    ensures r.None? <==> IsShuttingDown(cluster)
  {
    if IsShuttingDown(cluster) then None
    else
      var jm := cluster.spec.jobManager;
      var labels := ComponentLabels(cluster.name, "jobmanager");
      var container := Container(
        "jobmanager", cluster.spec.image.name, cluster.spec.image.pullPolicy, ["jobmanager"],
        JobManagerContainerPorts(jm.ports), Some(jm.resources),
        ProcessEnv(JobManagerRole, cluster, propertiesOrder), jm.mounts);
      Some(Deployment(
        Meta(cluster, JobManagerDeploymentName(cluster.name), labels),
        jm.replicas,
        labels,
        PodTemplate(labels, PodSpec([container], "", jm.volumes, jm.nodeSelector, cluster.spec.image.pullSecrets))))
  }

  /**
   * How the JobManager service is exposed: inside the cluster only, through a
   * load balancer internal to the VPC, or through an external load balancer.
   */
  function ServiceExposure(scope: AccessScope): (r: Result<(ServiceType, map<string, string>), ConverterError>)
    ensures scope == ClusterScope ==> r == Success((ClusterIP, map[]))
    ensures scope == VPCScope ==> r == Success((LoadBalancer, map[LB_TYPE_ANNOTATION := "Internal"]))
    ensures scope == ExternalScope ==> r == Success((LoadBalancer, map[]))
    ensures r.Failure? <==> scope.UnknownScope?
    ensures r.Failure? ==> r.error == UnknownAccessScope(scope.name)
  {
    match scope
    case ClusterScope => Success((ClusterIP, map[]))
    case VPCScope => Success((LoadBalancer, map[LB_TYPE_ANNOTATION := "Internal"]))
    case ExternalScope => Success((LoadBalancer, map[]))
    case UnknownScope(name) => Failure(UnknownAccessScope(name))
  }

  function JobManagerServicePorts(ports: JobManagerPorts): seq<ServicePort> {
    [ServicePort("rpc", ports.rpc, "rpc"), ServicePort("blob", ports.blob, "blob"),
     ServicePort("query", ports.query, "query"), ServicePort("ui", ports.ui, "ui")]
  }

  function GetDesiredJobManagerService(cluster: FlinkCluster): (r: Result<Option<Service>, ConverterError>)
    ensures IsShuttingDown(cluster) ==> r == Success(None)
    ensures !IsShuttingDown(cluster) ==>
      (r.Failure? <==> cluster.spec.jobManager.accessScope.UnknownScope?) && (r.Success? ==> r.value.Some?)
  {
    if IsShuttingDown(cluster) then Success(None)
    else
      var jm := cluster.spec.jobManager;
      var labels := ComponentLabels(cluster.name, "jobmanager");
      var service := Service(
        Meta(cluster, JobManagerServiceName(cluster.name), labels),
        labels,
        JobManagerServicePorts(jm.ports),
        OtherServiceType(""));
      match ServiceExposure(jm.accessScope)
      case Failure(e) => Failure(e)
      case Success((serviceType, annotations)) =>
        Success(Some(service.(serviceType := serviceType, meta := service.meta.(annotations := annotations))))
  }

  function GetDesiredTaskManagerDeployment(cluster: FlinkCluster, propertiesOrder: seq<string>): (r: Option<Deployment>)
    requires IsKeyOrder(propertiesOrder, cluster.spec.flinkProperties)
    ensures r.None? <==> IsShuttingDown(cluster)
  {
    if IsShuttingDown(cluster) then None
    else
      var tm := cluster.spec.taskManager;
      var labels := ComponentLabels(cluster.name, "taskmanager");
      var container := Container(
        "taskmanager", cluster.spec.image.name, cluster.spec.image.pullPolicy, ["taskmanager"],
        TaskManagerContainerPorts(tm.ports), Some(tm.resources),
        ProcessEnv(TaskManagerRole, cluster, propertiesOrder), tm.mounts);
      Some(Deployment(
        Meta(cluster, TaskManagerDeploymentName(cluster.name), labels),
        Some(tm.replicas),
        labels,
        PodTemplate(labels, PodSpec([container] + tm.sidecars, "", tm.volumes, tm.nodeSelector, cluster.spec.image.pullSecrets))))
  }

  // ---------------------------------------------------------------- job

  /** The job resource. Unlike the three above it is not switched off by the lifecycle state. */
  function GetDesiredJob(cluster: FlinkCluster): (r: Option<Job>)
    ensures r.Some? <==> cluster.spec.job.Some?
  {
    match cluster.spec.job
    case None => None
    case Some(job) =>
      var labels := JobLabels(cluster.name);
      var container := Container(
        "main", cluster.spec.image.name, cluster.spec.image.pullPolicy,
        JobArgs(cluster.name, cluster.spec.jobManager.ports.ui, job),
        [], None, JobEnv(cluster.spec.envVars, job.jarFile), job.mounts);
      Some(Job(
        Meta(cluster, JobName(cluster.name), labels),
        PodTemplate(labels, PodSpec([container], job.restartPolicy, job.volumes, map[], cluster.spec.image.pullSecrets))))
  }

  // ---------------------------------------------------------------- the whole desired state

  /**
   * The desired state of a cluster: nothing for a deleted cluster; otherwise
   * the four resources, or the access-scope failure when the service is built
   * and its scope is unknown.
   */
  function GetDesiredClusterState(cluster: Option<FlinkCluster>, jmPropertiesOrder: seq<string>, tmPropertiesOrder: seq<string>)
    : (r: Result<DesiredClusterState, ConverterError>)
    requires cluster.Some? ==> IsKeyOrder(jmPropertiesOrder, cluster.value.spec.flinkProperties)
    requires cluster.Some? ==> IsKeyOrder(tmPropertiesOrder, cluster.value.spec.flinkProperties)
    ensures cluster.None? ==> r == Success(DesiredClusterState(None, None, None, None))
    ensures r.Failure? <==>
      cluster.Some? && !IsShuttingDown(cluster.value) && cluster.value.spec.jobManager.accessScope.UnknownScope?
    ensures cluster.Some? && IsShuttingDown(cluster.value) ==>
      && r.Success?
      && r.value.jmDeployment.None? && r.value.jmService.None? && r.value.tmDeployment.None?
      && (r.value.job.Some? <==> cluster.value.spec.job.Some?)
    ensures cluster.Some? && r.Success? && !IsShuttingDown(cluster.value) ==>
      && r.value.jmDeployment.Some? && r.value.jmService.Some? && r.value.tmDeployment.Some?
      && (r.value.job.Some? <==> cluster.value.spec.job.Some?)
  {
    match cluster
    case None => Success(DesiredClusterState(None, None, None, None))
    case Some(c) =>
      var jmDeployment := GetDesiredJobManagerDeployment(c, jmPropertiesOrder);
      match GetDesiredJobManagerService(c)
      case Failure(e) => Failure(e)
      case Success(jmService) =>
        Success(DesiredClusterState(
          jmDeployment, jmService, GetDesiredTaskManagerDeployment(c, tmPropertiesOrder), GetDesiredJob(c)))
  }

  // ---------------------------------------------------------------- properties of the desired state

  /**
   * The JobManager and TaskManager environments: the RPC address names the
   * JobManager, the CPU and memory limits are read from the container the
   * variables sit in (in millicores and MiB), FLINK_PROPERTIES carries one
   * `key: value` line per property, and the cluster's own env vars follow.
   */
  lemma ProcessEnvLayout(role: Role, cluster: FlinkCluster, propertiesOrder: seq<string>)
    requires IsKeyOrder(propertiesOrder, cluster.spec.flinkProperties)
    ensures var env := ProcessEnv(role, cluster, propertiesOrder);
      && |env| == 4 + |cluster.spec.envVars|
      && env[4..] == cluster.spec.envVars
      && env[0].name == "JOB_MANAGER_RPC_ADDRESS" && env[0].value == JobManagerDeploymentName(cluster.name)
      && env[0].valueFrom.None?
      && env[1].name == role.EnvPrefix() + "_CPU_LIMIT"
      && env[1].valueFrom == Some(ResourceFieldRef(role.ContainerName(), "limits.cpu", "1m"))
      && env[2].name == role.EnvPrefix() + "_MEMORY_LIMIT"
      && env[2].valueFrom == Some(ResourceFieldRef(role.ContainerName(), "limits.memory", "1Mi"))
      && env[3].name == "FLINK_PROPERTIES" && env[3].valueFrom.None?
      && env[3].value == Concat(Lines(cluster.spec.flinkProperties, propertiesOrder))
      && (forall k :: k in cluster.spec.flinkProperties ==>
            Line(k, cluster.spec.flinkProperties[k]) in Lines(cluster.spec.flinkProperties, propertiesOrder))
  {
    SameLinesInEveryOrder(cluster.spec.flinkProperties, propertiesOrder, propertiesOrder);
  }

  /**
   * The JobManager and TaskManager receive the same properties, whatever
   * order the map was visited in for each: their FLINK_PROPERTIES values are
   * made of the same lines.
   */
  lemma ManagersShareProperties(cluster: FlinkCluster, jmPropertiesOrder: seq<string>, tmPropertiesOrder: seq<string>)
    requires IsKeyOrder(jmPropertiesOrder, cluster.spec.flinkProperties)
    requires IsKeyOrder(tmPropertiesOrder, cluster.spec.flinkProperties)
    ensures ProcessEnv(JobManagerRole, cluster, jmPropertiesOrder)[3].name ==
            ProcessEnv(TaskManagerRole, cluster, tmPropertiesOrder)[3].name == "FLINK_PROPERTIES"
    ensures multiset(Lines(cluster.spec.flinkProperties, jmPropertiesOrder)) ==
            multiset(Lines(cluster.spec.flinkProperties, tmPropertiesOrder))
    ensures ProcessEnv(JobManagerRole, cluster, jmPropertiesOrder)[4..] ==
            ProcessEnv(TaskManagerRole, cluster, tmPropertiesOrder)[4..]
  {
    SameLinesInEveryOrder(cluster.spec.flinkProperties, jmPropertiesOrder, tmPropertiesOrder);
  }

  /**
   * The JobManager deployment: named after the cluster, in its namespace,
   * selecting exactly the pods it creates, with one `jobmanager` container
   * that exposes the four configured ports under their names and whose
   * resource-limit variables point at itself.
   */
  lemma JobManagerDeploymentLayout(cluster: FlinkCluster, propertiesOrder: seq<string>)
    requires IsKeyOrder(propertiesOrder, cluster.spec.flinkProperties)
    requires !IsShuttingDown(cluster)
    ensures var d := GetDesiredJobManagerDeployment(cluster, propertiesOrder).value;
      var ports := cluster.spec.jobManager.ports;
      && d.meta.name == JobManagerDeploymentName(cluster.name)
      && d.meta.namespace == cluster.namespace
      && d.meta.labels == d.selector == d.template.labels == ComponentLabels(cluster.name, "jobmanager")
      && Selects(d.selector, d.template.labels)
      && d.replicas == cluster.spec.jobManager.replicas
      && |d.template.spec.containers| == 1
      && var c := d.template.spec.containers[0];
      && c.name == "jobmanager" && c.args == ["jobmanager"]
      && c.image == cluster.spec.image.name && c.pullPolicy == cluster.spec.image.pullPolicy
      && c.ports == [ContainerPort("rpc", ports.rpc), ContainerPort("blob", ports.blob),
                     ContainerPort("query", ports.query), ContainerPort("ui", ports.ui)]
      && c.resources == Some(cluster.spec.jobManager.resources)
      && c.env[1].valueFrom.value.containerName == c.env[2].valueFrom.value.containerName == c.name
      && c.env[4..] == cluster.spec.envVars
      && c.volumeMounts == cluster.spec.jobManager.mounts
      && d.template.spec.volumes == cluster.spec.jobManager.volumes
      && d.template.spec.nodeSelector == cluster.spec.jobManager.nodeSelector
      && d.template.spec.pullSecrets == cluster.spec.image.pullSecrets
  {
    ProcessEnvLayout(JobManagerRole, cluster, propertiesOrder);
  }

  /**
   * The TaskManager deployment: named after the cluster, selecting exactly
   * the pods it creates, the `taskmanager` container first with its three
   * ports, then the sidecars in the order given, and the configured replica
   * count.
   */
  lemma TaskManagerDeploymentLayout(cluster: FlinkCluster, propertiesOrder: seq<string>)
    requires IsKeyOrder(propertiesOrder, cluster.spec.flinkProperties)
    requires !IsShuttingDown(cluster)
    ensures var d := GetDesiredTaskManagerDeployment(cluster, propertiesOrder).value;
      var tm := cluster.spec.taskManager;
      && d.meta.name == TaskManagerDeploymentName(cluster.name)
      && d.meta.namespace == cluster.namespace
      && d.meta.labels == d.selector == d.template.labels == ComponentLabels(cluster.name, "taskmanager")
      && Selects(d.selector, d.template.labels)
      && d.replicas == Some(tm.replicas)
      && |d.template.spec.containers| == 1 + |tm.sidecars|
      && d.template.spec.containers[1..] == tm.sidecars
      && var c := d.template.spec.containers[0];
      && c.name == "taskmanager" && c.args == ["taskmanager"]
      && c.image == cluster.spec.image.name && c.pullPolicy == cluster.spec.image.pullPolicy
      && c.ports == [ContainerPort("data", tm.ports.data), ContainerPort("rpc", tm.ports.rpc),
                     ContainerPort("query", tm.ports.query)]
      && c.resources == Some(tm.resources)
      && c.env[0].value == JobManagerDeploymentName(cluster.name)
      && c.env[1].valueFrom.value.containerName == c.env[2].valueFrom.value.containerName == c.name
      && c.env[4..] == cluster.spec.envVars
      && c.volumeMounts == tm.mounts
      && d.template.spec.volumes == tm.volumes
      && d.template.spec.nodeSelector == tm.nodeSelector
      && d.template.spec.pullSecrets == cluster.spec.image.pullSecrets
  {
    ProcessEnvLayout(TaskManagerRole, cluster, propertiesOrder);
  }

  /**
   * The service exposes the JobManager: it carries the deployment's name,
   * selects the JobManager pods and neither the TaskManager nor the job pods,
   * and each of its four ports forwards, by name, to the JobManager container
   * port of the same number.
   */
  lemma ServiceRoutesToJobManager(cluster: FlinkCluster, jmPropertiesOrder: seq<string>, tmPropertiesOrder: seq<string>)
    requires IsKeyOrder(jmPropertiesOrder, cluster.spec.flinkProperties)
    requires IsKeyOrder(tmPropertiesOrder, cluster.spec.flinkProperties)
    requires !IsShuttingDown(cluster) && !cluster.spec.jobManager.accessScope.UnknownScope?
    ensures var s := GetDesiredJobManagerService(cluster).value.value;
      var jm := GetDesiredJobManagerDeployment(cluster, jmPropertiesOrder).value;
      var tm := GetDesiredTaskManagerDeployment(cluster, tmPropertiesOrder).value;
      var ports := cluster.spec.jobManager.ports;
      && s.meta.name == jm.meta.name && s.meta.namespace == cluster.namespace
      && s.meta.labels == s.selector == ComponentLabels(cluster.name, "jobmanager")
      && s.ports == [ServicePort("rpc", ports.rpc, "rpc"), ServicePort("blob", ports.blob, "blob"),
                     ServicePort("query", ports.query, "query"), ServicePort("ui", ports.ui, "ui")]
      && Selects(s.selector, jm.template.labels)
      && !Selects(s.selector, tm.template.labels)
      && (cluster.spec.job.Some? ==> !Selects(s.selector, GetDesiredJob(cluster).value.template.labels))
      && (forall i :: 0 <= i < |s.ports| ==>
            s.ports[i].targetPort == s.ports[i].name
            && ContainerPort(s.ports[i].targetPort, s.ports[i].port) in jm.template.spec.containers[0].ports)
  {
    var ports := cluster.spec.jobManager.ports;
    assert GetDesiredJobManagerService(cluster).value.value.ports == JobManagerServicePorts(ports);
    assert GetDesiredJobManagerDeployment(cluster, jmPropertiesOrder).value.template.spec.containers[0].ports
        == JobManagerContainerPorts(ports);
    ServicePortsForwardByName(ports);
    JobManagerSelectorIsExact(cluster.name);
  }

  lemma ServicePortsForwardByName(ports: JobManagerPorts)
    ensures var sp := JobManagerServicePorts(ports);
      forall i :: 0 <= i < |sp| ==>
        sp[i].targetPort == sp[i].name && ContainerPort(sp[i].targetPort, sp[i].port) in JobManagerContainerPorts(ports)
  {
  }

  /** The JobManager labels select the JobManager pods only. */
  lemma JobManagerSelectorIsExact(clusterName: string)
    ensures Selects(ComponentLabels(clusterName, "jobmanager"), ComponentLabels(clusterName, "jobmanager"))
    ensures !Selects(ComponentLabels(clusterName, "jobmanager"), ComponentLabels(clusterName, "taskmanager"))
    ensures !Selects(ComponentLabels(clusterName, "jobmanager"), JobLabels(clusterName))
  {
    assert ComponentLabels(clusterName, "taskmanager")["component"] != ComponentLabels(clusterName, "jobmanager")["component"];
    assert "component" !in JobLabels(clusterName);
  }

  /** The service type and annotations follow the access scope. */
  lemma ServiceFollowsAccessScope(cluster: FlinkCluster)
    requires !IsShuttingDown(cluster)
    ensures var scope := cluster.spec.jobManager.accessScope;
      var r := GetDesiredJobManagerService(cluster);
      && (scope == ClusterScope ==> r.value.value.serviceType == ClusterIP && r.value.value.meta.annotations == map[])
      && (scope == VPCScope ==>
            r.value.value.serviceType == LoadBalancer && r.value.value.meta.annotations == map[LB_TYPE_ANNOTATION := "Internal"])
      && (scope == ExternalScope ==> r.value.value.serviceType == LoadBalancer && r.value.value.meta.annotations == map[])
      && (scope.UnknownScope? ==> r == Failure(UnknownAccessScope(scope.name)))
  {
  }

  /**
   * The job: named after the cluster, carrying the cluster labels without a
   * component label, with one `main` container whose env is the cluster's
   * env vars followed, for a remote jar, by its URI in FLINK_JOB_JAR_URI;
   * restart policy, volumes and mounts come from the job spec.
   */
  lemma JobLayout(cluster: FlinkCluster)
    requires cluster.spec.job.Some?
    ensures var j := GetDesiredJob(cluster).value;
      var spec := cluster.spec.job.value;
      && j.meta.name == JobName(cluster.name) && j.meta.namespace == cluster.namespace
      && j.meta.labels == j.template.labels == JobLabels(cluster.name)
      && |j.template.spec.containers| == 1
      && var c := j.template.spec.containers[0];
      && c.name == "main"
      && c.image == cluster.spec.image.name && c.pullPolicy == cluster.spec.image.pullPolicy
      && c.args == JobArgs(cluster.name, cluster.spec.jobManager.ports.ui, spec)
      && c.env[..|cluster.spec.envVars|] == cluster.spec.envVars
      && (IsRemoteJar(spec.jarFile) <==> |c.env| == |cluster.spec.envVars| + 1)
      && (IsRemoteJar(spec.jarFile) ==> c.env[|cluster.spec.envVars|] == EnvVar(JAR_URI_ENV, spec.jarFile, None))
      && j.template.spec.restartPolicy == spec.restartPolicy
      && j.template.spec.volumes == spec.volumes
      && c.volumeMounts == spec.mounts
  {
    var spec := cluster.spec.job.value;
    var env := JobEnv(cluster.spec.envVars, spec.jarFile);
    if IsRemoteJar(spec.jarFile) {
      assert env == env[..|cluster.spec.envVars|] + env[|cluster.spec.envVars|..];
    }
  }

  /**
   * The job runs the `flink run` command for the job spec against the
   * JobManager service's UI port: reading its command line back gives the
   * requested submission, whenever the jar path cannot be mistaken for one
   * of the options.
   */
  lemma JobSubmitsRequestedJar(cluster: FlinkCluster)
    requires cluster.spec.job.Some?
    requires !IsOptionWord(JarPath(cluster.spec.job.value.jarFile))
    ensures var c := GetDesiredJob(cluster).value.template.spec.containers[0];
      && ParseJobArgs(c.args) == Some(Requested(cluster.name, cluster.spec.jobManager.ports.ui, cluster.spec.job.value))
      && ParseJobArgs(c.args).value.jobManager ==
           JobManagerServiceName(cluster.name) + ":" + Text.IntToDecimal(cluster.spec.jobManager.ports.ui as int)
  {
    JobArgsRoundTrip(cluster.name, cluster.spec.jobManager.ports.ui, cluster.spec.job.value);
  }

  /** The job is wanted whatever the lifecycle state: stopping the cluster does not change it. */
  lemma JobIgnoresLifecycle(cluster: FlinkCluster, state: ClusterState)
    ensures GetDesiredJob(cluster) == GetDesiredJob(cluster.(status := cluster.status.(state := state)))
  {
  }

  /** A resource in the cluster's namespace whose one owner reference is the cluster, as controller. */
  predicate OwnedBy(meta: ObjectMeta, cluster: FlinkCluster) {
    meta.namespace == cluster.namespace && meta.ownerReferences == [ToOwnerReference(cluster)]
  }

  /**
   * Every resource of the desired state lives in the cluster's namespace and
   * has the cluster as its one, controlling owner; the resources of one
   * cluster have pairwise distinct names, except that the JobManager service
   * deliberately shares its deployment's name.
   */
  lemma ResourcesOwnedByCluster(cluster: FlinkCluster, jmPropertiesOrder: seq<string>, tmPropertiesOrder: seq<string>)
    requires IsKeyOrder(jmPropertiesOrder, cluster.spec.flinkProperties)
    requires IsKeyOrder(tmPropertiesOrder, cluster.spec.flinkProperties)
    requires GetDesiredClusterState(Some(cluster), jmPropertiesOrder, tmPropertiesOrder).Success?
    ensures var d := GetDesiredClusterState(Some(cluster), jmPropertiesOrder, tmPropertiesOrder).value;
      && (d.jmDeployment.Some? ==> OwnedBy(d.jmDeployment.value.meta, cluster))
      && (d.jmService.Some? ==> OwnedBy(d.jmService.value.meta, cluster))
      && (d.tmDeployment.Some? ==> OwnedBy(d.tmDeployment.value.meta, cluster))
      && (d.job.Some? ==> OwnedBy(d.job.value.meta, cluster))
      && (d.jmDeployment.Some? && d.jmService.Some? ==> d.jmDeployment.value.meta.name == d.jmService.value.meta.name)
      && (d.jmDeployment.Some? && d.tmDeployment.Some? ==> d.jmDeployment.value.meta.name != d.tmDeployment.value.meta.name)
      && (d.jmDeployment.Some? && d.job.Some? ==> d.jmDeployment.value.meta.name != d.job.value.meta.name)
      && (d.tmDeployment.Some? && d.job.Some? ==> d.tmDeployment.value.meta.name != d.job.value.meta.name)
  {
    var d := GetDesiredClusterState(Some(cluster), jmPropertiesOrder, tmPropertiesOrder).value;
    assert d.jmDeployment == GetDesiredJobManagerDeployment(cluster, jmPropertiesOrder);
    assert d.jmService == GetDesiredJobManagerService(cluster).value;
    assert d.tmDeployment == GetDesiredTaskManagerDeployment(cluster, tmPropertiesOrder);
    assert d.job == GetDesiredJob(cluster);
    NamesDistinct(cluster.name, cluster.name);
  }
}
