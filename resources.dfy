/**
 * The record types the two controllers read and write, trimmed to the fields
 * the code touches: the FlinkCluster custom resource (spec and status) and the
 * Kubernetes objects built from it (Deployment, Service, Job, Pod). Values the
 * controllers only pass through (resource requirements, volumes, mounts, pull
 * secrets) are carried as opaque tokens.
 */
module Resources {
  import opened Wrappers

  newtype int32 = x: int | -0x8000_0000 <= x < 0x8000_0000

  /** A value of a Kubernetes type the controllers copy without looking inside. */
  datatype Opaque = Opaque(token: string)

  // ---------------------------------------------------------------- FlinkCluster

  /** `Status.State` of a FlinkCluster; a value outside the known set is kept verbatim. */
  datatype ClusterState =
    | Creating | Running | Updating | Stopping | Stopped | Failed
    | OtherState(name: OtherStateName)

  /** A state name that is none of the known states, so that each state has one representation. */
  type OtherStateName = s: string | s !in {"Creating", "Running", "Updating", "Stopping", "Stopped", "Failed"}
    witness ""

  /** `JobManagerSpec.AccessScope`; a value outside the known set is kept verbatim. */
  datatype AccessScope = ClusterScope | VPCScope | ExternalScope | UnknownScope(name: UnknownScopeName)

  /** A scope name that is none of the three known scopes. */
  type UnknownScopeName = s: string | s !in {"Cluster", "VPC", "External"}
    witness ""

  datatype ImageSpec = ImageSpec(name: string, pullPolicy: string, pullSecrets: seq<Opaque>)

  datatype JobManagerPorts = JobManagerPorts(rpc: int32, blob: int32, query: int32, ui: int32)

  datatype JobManagerSpec = JobManagerSpec(
    replicas: Option<int32>,
    accessScope: AccessScope,
    ports: JobManagerPorts,
    resources: Opaque,
    volumes: seq<Opaque>,
    mounts: seq<Opaque>,
    nodeSelector: map<string, string>)

  datatype TaskManagerPorts = TaskManagerPorts(data: int32, rpc: int32, query: int32)

  datatype TaskManagerSpec = TaskManagerSpec(
    replicas: int32,
    ports: TaskManagerPorts,
    resources: Opaque,
    volumes: seq<Opaque>,
    mounts: seq<Opaque>,
    nodeSelector: map<string, string>,
    sidecars: seq<Container>)

  datatype JobSpec = JobSpec(
    jarFile: string,
    className: Option<string>,
    args: seq<string>,
    savepoint: Option<string>,
    allowNonRestoredState: Option<bool>,
    parallelism: Option<int32>,
    noLoggingToStdout: Option<bool>,
    restartPolicy: string,
    volumes: seq<Opaque>,
    mounts: seq<Opaque>)

  datatype FlinkClusterSpec = FlinkClusterSpec(
    image: ImageSpec,
    jobManager: JobManagerSpec,
    taskManager: TaskManagerSpec,
    job: Option<JobSpec>,
    flinkProperties: map<string, string>,
    envVars: seq<EnvVar>)

  /** `Status.Components.Job`: the Flink job ID once discovered, and the job's state. */
  datatype JobStatus = JobStatus(id: string, state: string)

  datatype FlinkClusterStatus = FlinkClusterStatus(state: ClusterState, job: Option<JobStatus>)

  datatype FlinkCluster = FlinkCluster(
    apiVersion: string,
    kind: string,
    name: string,
    namespace: string,
    uid: string,
    spec: FlinkClusterSpec,
    status: FlinkClusterStatus)

  // ---------------------------------------------------------------- Kubernetes objects

  datatype OwnerReference = OwnerReference(
    apiVersion: string,
    kind: string,
    name: string,
    uid: string,
    controller: bool,
    blockOwnerDeletion: bool)

  datatype ObjectMeta = ObjectMeta(
    namespace: string,
    name: string,
    ownerReferences: seq<OwnerReference>,
    labels: map<string, string>,
    annotations: map<string, string>)

  /** `ValueFrom.ResourceFieldRef`: an environment value read from a container's resource limit. */
  datatype ResourceFieldRef = ResourceFieldRef(containerName: string, resource: string, divisor: string)

  datatype EnvVar = EnvVar(name: string, value: string, valueFrom: Option<ResourceFieldRef>)

  datatype ContainerPort = ContainerPort(name: string, containerPort: int32)

  datatype Container = Container(
    name: string,
    image: string,
    pullPolicy: string,
    args: seq<string>,
    ports: seq<ContainerPort>,
    resources: Option<Opaque>,
    env: seq<EnvVar>,
    volumeMounts: seq<Opaque>)

  datatype PodSpec = PodSpec(
    containers: seq<Container>,
    restartPolicy: string,
    volumes: seq<Opaque>,
    nodeSelector: map<string, string>,
    pullSecrets: seq<Opaque>)

  datatype PodTemplate = PodTemplate(labels: map<string, string>, spec: PodSpec)

  datatype Deployment = Deployment(
    meta: ObjectMeta,
    replicas: Option<int32>,
    selector: map<string, string>,
    template: PodTemplate)

  datatype ServiceType = ClusterIP | LoadBalancer | OtherServiceType(name: string)

  /** A service port forwarding `port` to the container port named `targetPort`. */
  datatype ServicePort = ServicePort(name: string, port: int32, targetPort: string)

  datatype Service = Service(
    meta: ObjectMeta,
    selector: map<string, string>,
    ports: seq<ServicePort>,
    serviceType: ServiceType)

  datatype Job = Job(meta: ObjectMeta, template: PodTemplate)

  datatype Pod = Pod(meta: ObjectMeta, phase: string)

  /** A label selector matches a label set when every selector entry is among the labels. */
  predicate Selects(selector: map<string, string>, labels: map<string, string>) {
    forall k :: k in selector ==> k in labels && labels[k] == selector[k]
  }
}
