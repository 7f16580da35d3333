# Flink operator: converter and observer

This project models the two decision-making parts of the Flink-on-Kubernetes
operator's reconciler.

- **Converter** (`controllers/flinkcluster_converter.go`): turns a FlinkCluster
  custom resource into the resources that should exist for it:
  - a JobManager deployment;
  - a JobManager service;
  - a TaskManager deployment;
  - for a job cluster, a Kubernetes Job that runs `flink run`.

  It is modelled as pure functions over trimmed Kubernetes records. Foreign
  values (volumes, mounts, resource limits, quantities) are carried through as
  opaque tokens.
- **Observer** (`controllers/flinkcluster_observer.go`): one pass of reads
  against the Kubernetes API that fills an observed-state record in place:
  - the cluster, the two deployments, the service, the job and its pod;
  - the Flink job ID, taken from the persisted status or asked of the Flink
    REST API.

  The record is a class (`ObservedClusterState`) and the observer is a class
  (`ClusterStateObserver`). Their methods are proved to end in the state that
  the functions `ObserveSpec` and `ObserveJobSpec` describe, and the
  observer's properties are lemmas about those functions.

Modules:

| module | file | contents |
|---|---|---|
| `Wrappers` | `wrappers.dfy` | `Option` and `Result` |
| `Text` | `text.dfy` | decimal formatting and parsing (`fmt`'s `%d`), `strings.Contains`, the last `/` segment |
| `Resources` | `resources.dfy` | the FlinkCluster record and the Kubernetes records the converter builds |
| `Naming` | `naming.dfy` | resource names and label sets |
| `FlinkProperties` | `properties.dfy` | the `FLINK_PROPERTIES` blob and the loop that builds it |
| `JobCommand` | `jobcommand.dfy` | the `flink run` command line, remote-jar handling, and a reader for the command line |
| `Converter` | `converter.dfy` | the desired-state builders |
| `Observer` | `observer.dfy` | the observation pass |

Go ranges over a map in an unspecified order. Two choices follow from that:
- `GetFlinkProperties` is a method whose loop picks any key not yet written.
- The builders take the visiting order as a parameter, one order for the
  JobManager and one for the TaskManager, because Go walks the map once for
  each.

The lemmas show that both blobs consist of the same lines. They also show
that the exact text really does depend on the order.

Where the code differs from what one might expect of the design, the model
follows the code:
- **The Job is not switched off by the lifecycle state.** The Stopping and
  Stopped states remove the JobManager deployment, the JobManager service and
  the TaskManager deployment. The Job is still built whenever the spec has a
  job (`JobIgnoresLifecycle`).
- **An unknown access scope is a panic in the code.** Here it is the `Failure`
  of `GetDesiredClusterState`.
- **NotFound does not clear a field.** A lookup that answers NotFound sets
  only a local variable to nil, so the record keeps whatever it already held.
  The field is absent only on a fresh record. The caller is assumed to pass
  a fresh record on every pass; the reconciler is not part of this model, so
  this assumption is not checked here (`ClusterLookupsFill`,
  `FreshPassFindsWhatExists`).
- **The probe gate reads two different sources.** It uses the job found in
  *this* pass. For the job pod and the service it uses the record's fields:
  - an empty pod list leaves an earlier pod in place;
  - the gate therefore asks for "a pod is recorded", not "exactly one pod was
    listed" (`ProbeGate`).

## Model

| member | source | states |
|---|---|---|
| Converter.GetDesiredClusterState | controllers/flinkcluster_converter.go:44-56 | A deleted cluster wants nothing. Stopping or Stopped wants no managers and no service, but the job is present exactly when the spec has one. Otherwise the three manager resources are all present. The result fails exactly when the cluster is live and its access scope is unknown. |
| Converter.GetDesiredJobManagerDeployment | controllers/flinkcluster_converter.go:59-148 | There is no deployment exactly when the cluster is Stopping or Stopped. |
| Converter.GetDesiredJobManagerService | controllers/flinkcluster_converter.go:151-214 | There is no service while shutting down. Otherwise it fails exactly for an unknown access scope, and otherwise a service is built. |
| Converter.ServiceExposure | controllers/flinkcluster_converter.go:200-212 | Cluster scope gives ClusterIP with no annotations. VPC scope gives LoadBalancer with the internal load-balancer annotation. External scope gives LoadBalancer with no annotations. Any other scope is the UnknownAccessScope error. |
| Converter.GetDesiredTaskManagerDeployment | controllers/flinkcluster_converter.go:217-307 | There is no deployment exactly when the cluster is Stopping or Stopped. |
| Converter.GetDesiredJob | controllers/flinkcluster_converter.go:310-315 | A job is wanted exactly when the spec has a job section. |
| Converter.ToOwnerReference | controllers/flinkcluster_converter.go:403-413 | The reference names the cluster by API version, kind, name and uid. It makes the cluster the controller and does not block owner deletion. |
| Converter.IsShuttingDown | controllers/flinkcluster_converter.go:62-65 | Stopping and Stopped tear the managers down. Creating, Running, Updating, Failed and any unknown state keep them. |
| Converter.ProcessEnv | controllers/flinkcluster_converter.go:81-111 | Four built-in variables come first and the cluster's env vars follow unchanged. The fourth carries the properties blob. |
| Converter.ProcessEnvLayout | controllers/flinkcluster_converter.go:81-111 | The first entry is JOB_MANAGER_RPC_ADDRESS, a plain value set to the JobManager deployment name. Next come `<ROLE>_CPU_LIMIT` (divisor 1m) and `<ROLE>_MEMORY_LIMIT` (divisor 1Mi), where the role prefix is JOB_MANAGER or TASK_MANAGER; both are read from the container itself. Then FLINK_PROPERTIES, a plain value with one line per property. The cluster's env vars follow, in order. |
| Converter.ManagersShareProperties | controllers/flinkcluster_converter.go:436-442 | The JobManager and TaskManager get the same property lines, whatever order each visits the map in, and the same trailing env vars. |
| Converter.JobManagerDeploymentLayout | controllers/flinkcluster_converter.go:67-147 | The deployment is named `<cluster>-jobmanager` and lives in the cluster's namespace. Its labels, selector and pod labels are all the jobmanager component labels, so it selects its own pods. It has the configured replicas. It has one `jobmanager` container with the ports rpc, blob, query and ui in that order, plus the image, resources, mounts, volumes, node selector and pull secrets. |
| Converter.TaskManagerDeploymentLayout | controllers/flinkcluster_converter.go:225-306 | The deployment is named `<cluster>-taskmanager` and selects its own pods. The `taskmanager` container comes first, with the ports data, rpc and query in that order; the sidecars follow in their given order. Replicas equal the spec's replicas, and the env points at the JobManager. |
| Converter.ServiceRoutesToJobManager | controllers/flinkcluster_converter.go:159-196 | The service shares the JobManager deployment's name. Its labels and its selector are the jobmanager component labels. It selects JobManager pods and never TaskManager or job pods. Its ports are exactly rpc, blob, query and ui, in that order. Each targets, by name, the JobManager container port with the same name and number. |
| Converter.ServiceFollowsAccessScope | controllers/flinkcluster_converter.go:197-212 | The built service's type and annotations follow the access scope, and an unknown scope fails. |
| Converter.JobLayout | controllers/flinkcluster_converter.go:317-399 | The job is named `<cluster>-job` and carries the cluster labels without a component label. It has one `main` container running the `flink run` command line for the spec. Its env is the cluster's env vars, then FLINK_JOB_JAR_URI exactly when the jar is remote. Its restart policy, volumes and mounts come from the job spec. |
| Converter.JobSubmitsRequestedJar | controllers/flinkcluster_converter.go:322-367 | When the jar path is not itself an option word, reading the `main` container's command line back gives the requested submission against `<cluster>-jobmanager:<ui>`. |
| Converter.JobIgnoresLifecycle | controllers/flinkcluster_converter.go:310-315 | Changing the lifecycle state never changes the desired job. |
| Converter.ResourcesOwnedByCluster | controllers/flinkcluster_converter.go:112-118 | Every desired resource is in the cluster's namespace, and its one owner reference is the cluster. The JobManager deployment and service share a name; otherwise the names are pairwise distinct. |
| FlinkProperties.GetFlinkProperties | controllers/flinkcluster_converter.go:436-442 | The loop visits every key exactly once, in some order. The text is that order's lines, concatenated. Every property's `key: value\n` line occurs in the text. |
| FlinkProperties.EveryLineInText | controllers/flinkcluster_converter.go:438-440 | In every visiting order, the blob contains the line of every property. |
| FlinkProperties.Line | controllers/flinkcluster_converter.go:439 | A line starts with its key and ends with a newline. When neither the key nor the value holds a newline, that final one is the line's only newline. |
| FlinkProperties.PropertiesText | controllers/flinkcluster_converter.go:436-442 | The blob contains the line of every key in the visiting order. |
| FlinkProperties.Lines | controllers/flinkcluster_converter.go:438-440 | There is one `key: value\n` line per key, at the key's position in the order. |
| FlinkProperties.KeyOrdersPermute | controllers/flinkcluster_converter.go:438 | Any two ways of visiting the map are permutations of each other. |
| FlinkProperties.LinesRespectPermutation | controllers/flinkcluster_converter.go:438-440 | Permuting the order permutes the lines. |
| FlinkProperties.SameLinesInEveryOrder | controllers/flinkcluster_converter.go:436-442 | Every visiting order gives the same multiset of lines, and every property has its line. |
| FlinkProperties.TextDependsOnOrder | controllers/flinkcluster_converter.go:438 | For a two-key map, the two orders give different blobs. |
| Naming.NamesDistinct | controllers/flinkcluster_converter.go:415-433 | The JobManager deployment and service names coincide. Each name is injective in the cluster name. No TaskManager, JobManager or job name equals another kind's, even across clusters. |
| Naming.JobManagerDeploymentName | controllers/flinkcluster_converter.go:416-418 | The name extends the cluster name by `-jobmanager`. |
| Naming.JobManagerServiceName | controllers/flinkcluster_converter.go:421-423 | The name extends the cluster name by `-jobmanager`. |
| Naming.TaskManagerDeploymentName | controllers/flinkcluster_converter.go:426-428 | The name extends the cluster name by `-taskmanager`. |
| Naming.JobName | controllers/flinkcluster_converter.go:431-433 | The name extends the cluster name by `-job`. |
| Naming.ComponentLabels | controllers/flinkcluster_converter.go:76-80 | The manager labels are the job labels plus `component=<component>`. |
| Naming.JobLabels | controllers/flinkcluster_converter.go:325-328 | The job labels are exactly `cluster=<cluster>` and `app=flink`. |
| Naming.JobPodSelector | controllers/flinkcluster_observer.go:332-336 | The job-pod selector is the job's labels plus `job-name=<cluster>-job`, a key the job labels do not have. |
| JobCommand.JobManagerAddress | controllers/flinkcluster_converter.go:322-324 | The address is the JobManager service name, a colon, and a decimal that reads back as the UI port. |
| JobCommand.IsRemoteJar | controllers/flinkcluster_converter.go:357 | A remote reference has at least the three characters of `://`. A path without a colon is local. |
| JobCommand.JobOptions | controllers/flinkcluster_converter.go:331-348 | At most eight words. There are none exactly when no option is set, and otherwise the first word is an option word. |
| JobCommand.JarPath | controllers/flinkcluster_converter.go:356-359 | A remote jar becomes `/opt/flink/job/` plus a file name. That name has no `/`, ends the URI and follows a `/` in it. A local jar is used as it is. |
| JobCommand.JobEnv | controllers/flinkcluster_converter.go:350-364 | The cluster's env vars come first. A remote jar adds exactly one FLINK_JOB_JAR_URI entry with the URI; a local jar adds nothing. |
| JobCommand.JobArgs | controllers/flinkcluster_converter.go:329-367 | The line starts with `./bin/flink run --jobmanager <address>`. The jar path sits just before the user arguments, which end the line in order. The length is 5 to 13 words plus the arguments. |
| JobCommand.OptionsRoundTrip | controllers/flinkcluster_converter.go:331-348 | Each option that is set is read back, in the order class, fromSavepoint, allowNonRestoredState (only when true), parallelism, sysoutLogging (only when true). Reading stops at the jar. |
| JobCommand.JobArgsRoundTrip | controllers/flinkcluster_converter.go:322-367 | Parsing the command line recovers the whole requested submission: address, options, parallelism as a number, jar path and user arguments. |
| JobCommand.RemoteJarExample | controllers/flinkcluster_converter.go:357-364 | `s3://bucket/path/app.jar` is submitted as `/opt/flink/job/app.jar`, and its URI is passed in FLINK_JOB_JAR_URI. |
| JobCommand.LocalJarExample | controllers/flinkcluster_converter.go:356 | A local path is submitted as it is and adds no env var. |
| JobCommand.WordCountExample | controllers/flinkcluster_converter.go:329-367 | The exact command line for a job with a class and parallelism 2. |
| Text.NatToDecimal | controllers/flinkcluster_converter.go:343 | The result is a non-empty string of digits with no leading zero. |
| Text.NatToDecimalValue | controllers/flinkcluster_converter.go:343 | The digits written denote the number. |
| Text.DecimalRoundTrip | controllers/flinkcluster_converter.go:323-324 | Parsing the decimal text of an integer, a port or a parallelism, gives the integer back. |
| Text.LastSegment | controllers/flinkcluster_converter.go:358-359 | The result is a suffix with no `/`. It is either the whole string or preceded by a `/`. |
| Observer.ObservedClusterState.constructor | controllers/flinkcluster_observer.go:46-54 | A new record holds nothing. |
| Observer.ClusterStateObserver.constructor | controllers/flinkcluster_observer.go:38-43 | The observer keeps its gateway, request and prober, and has probed nothing. |
| Observer.ClusterStateObserver.Observe | controllers/flinkcluster_observer.go:69-138 | The record ends as `ObserveSpec` describes. The error is the pass's error, and the only REST call is the one the pass makes. |
| Observer.ClusterStateObserver.ObserveJob | controllers/flinkcluster_observer.go:140-221 | The record ends as `ObserveJobSpec` describes, with the same error and REST calls. |
| Observer.ClusterStateObserver.GetFlinkJobID | controllers/flinkcluster_observer.go:224-250 | The REST API is called once at the URL. The result is the first listed job's ID, or nothing. |
| Observer.ProbeUrl | controllers/flinkcluster_observer.go:200-204 | The URL is plain HTTP to a host that starts with the service's name, and its path ends in `/jobs`. |
| Observer.Absorb | controllers/flinkcluster_observer.go:76-87 | A lookup fails exactly on an error other than NotFound, with that lookup's message. A success never empties a field, and what the field holds was either found or already there. |
| Observer.IsJobCreated | controllers/flinkcluster_observer.go:195-198 | A created job needs both the job and its pod. A running, succeeded or failed pod counts; a pending or unknown one does not. |
| Observer.HasPersistedJobId | controllers/flinkcluster_observer.go:190-191 | The status records a job ID exactly when it has a job entry with a non-empty ID. |
| Observer.FirstJobId | controllers/flinkcluster_observer.go:233-249 | There is an ID exactly when the call succeeded with a non-empty list, and it is the first entry's ID. |
| Observer.ObserveSpec | controllers/flinkcluster_observer.go:69-138 | A pass that returns an error has made no REST call. |
| Observer.ObserveJobSpec | controllers/flinkcluster_observer.go:140-221 | The job pass never touches the cluster, the deployments or the service. An error means no REST call was made. |
| Observer.JobIdSpec | controllers/flinkcluster_observer.go:189-218 | The job-ID step never fails, changes only the job ID and never clears it. |
| Observer.NoLookupAfterFailure | controllers/flinkcluster_observer.go:74-132 | The first failing lookup ends the pass. Its error is that lookup's own `LookupError(message)`. The lookups before it have filled their fields. The failing field and every later one keep their old values, including the job, the job pod and the job ID. Nothing read after the failure affects the outcome: not the later lookups, not the job, not the REST API. There is no REST call. |
| Observer.ClusterLookupsFill | controllers/flinkcluster_observer.go:74-132 | When no lookup fails, a found object replaces its field and NotFound keeps the old value. |
| Observer.FreshPassFindsWhatExists | controllers/flinkcluster_observer.go:74-132 | On a fresh record, each object is present exactly when its lookup found it. |
| Observer.PassOnlyFills | controllers/flinkcluster_observer.go:69-221 | No field that held a value is emptied by a pass. |
| Observer.SessionClusterSkipsJob | controllers/flinkcluster_observer.go:145-149 | Without a cluster, or without a job spec, the job pass changes nothing and succeeds. |
| Observer.DeletedClusterObservesNoJob | controllers/flinkcluster_observer.go:82-83 | When the cluster is not found on a fresh record, the job, pod and ID stay absent, there is no error and there is no REST call. |
| Observer.NoPodListAfterJobFailure | controllers/flinkcluster_observer.go:152-158 | A failing job lookup ends the pass with that error, before the pods are listed. |
| Observer.JobPodCount | controllers/flinkcluster_observer.go:166-187 | Zero pods leaves the pod field as it was. One pod becomes the job pod. More than one is the MultipleJobPods error: the job just read is kept, the pod and ID are left as they were, and there is no REST call. |
| Observer.PersistedJobIdReused | controllers/flinkcluster_observer.go:190-193 | A non-empty persisted ID becomes the job ID, with no REST call and no error. |
| Observer.ProbeGate | controllers/flinkcluster_observer.go:194-217 | Without a persisted ID, the REST API is asked exactly when four things hold: the job was found this pass, a pod is recorded, its phase is neither Pending nor Unknown, and the service is recorded. The call goes to `ProbeUrl`. It never fails the pass, and the ID changes only when the answer carries one. |
| Observer.FailedProbeKeepsJobId | controllers/flinkcluster_observer.go:211-214 | A failed or empty REST answer leaves the job ID as it was, and the pass does not fail. |
| Observer.KeysMatchDesiredState | controllers/flinkcluster_observer.go:258-340 | Every desired resource sits at the key the observer reads it by. Job pods are listed by the job labels plus `job-name`. The REST API is asked at the desired service's in-cluster DNS name on the UI port. |

## Left out

- Kubernetes client calls, `context` and `ctrl.Request`: these are remote I/O. They are replaced by the `Gateway` lookup functions and a `NamespacedName`.
- The HTTP client behind `getFlinkJobID` (15-second timeout, headers, body read, JSON decoding): this is network I/O plus a foreign decoder. It is the `prober` parameter, which yields whatever list decoding produced, or None when the request or the read fails. The code ignores the decoder's error, so a body that does not decode cleanly yields whatever partial list the decoder filled in; the model takes that list as given.
- Logging through `logr`: it has no effect on results.
- Nil pointer dereferences: the ports, `RestartPolicy` and the other pointer fields the code dereferences are modelled as always present, so the panics a missing one would cause are not modelled.
- `resource.MustParse`: the divisors are kept as the strings `1m` and `1Mi`, and resource quantities are opaque tokens.
- Full Kubernetes object schemas: volumes, mounts, node selectors, pull secrets and limits are passed through as opaque values; only the fields the code sets are modelled.
- The exact bytes of FLINK_PROPERTIES: they depend on Go's map order, which is a parameter here, so the model proves facts that hold for every order.
- The string values of the cluster states and access scopes: they are defined in the API types, which are not part of this model. The known values are constructors, and `OtherState` and `UnknownScope` carry only names that differ from the known constructors' names.
- `%p` printing of the pod list in the multiple-pods error: the error is `MultipleJobPods(count)`.
- The reconciliation engine, diffing, the lifecycle state machine and savepoints: the reconciler that calls the converter and the observer is not part of this model.
- Concurrency across reconciliation passes: it is handled outside this code.
