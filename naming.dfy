/**
 * How the controllers name and label the resources they manage. The
 * converter gives resources these names and labels and the observer looks
 * them up again by the same names, so the scheme must never let two
 * resources of one or more clusters share a name.
 */
module Naming {

  function JobManagerDeploymentName(clusterName: string): (r: string)
    ensures |r| == |clusterName| + 11 && r[..|clusterName|] == clusterName
  {
    clusterName + "-jobmanager"
  }

  function JobManagerServiceName(clusterName: string): (r: string)
    ensures |r| == |clusterName| + 11 && r[..|clusterName|] == clusterName
  {
    clusterName + "-jobmanager"
  }

  function TaskManagerDeploymentName(clusterName: string): (r: string)
    ensures |r| == |clusterName| + 12 && r[..|clusterName|] == clusterName
  {
    clusterName + "-taskmanager"
  }

  function JobName(clusterName: string): (r: string)
    ensures |r| == |clusterName| + 4 && r[..|clusterName|] == clusterName
  {
    clusterName + "-job"
  }

  /**
   * Labels of the JobManager and TaskManager resources and of their pods:
   * the job's labels plus the component they belong to.
   */
  function ComponentLabels(clusterName: string, component: string): (r: map<string, string>)
    ensures "component" !in JobLabels(clusterName)
    ensures r == JobLabels(clusterName)["component" := component]
  {
    map["cluster" := clusterName, "app" := "flink", "component" := component]
  }

  /** Labels of the job resource and its pod template: the cluster and the app, no component label. */
  function JobLabels(clusterName: string): (r: map<string, string>)
    ensures r.Keys == {"cluster", "app"}
    ensures r["cluster"] == clusterName && r["app"] == "flink"
  {
    map["cluster" := clusterName, "app" := "flink"]
  }

  /**
   * The label selector the observer lists job pods with: the job's own pod
   * labels plus the `job-name` label that the Job controller adds to the
   * pods it creates.
   */
  function JobPodSelector(clusterName: string): (r: map<string, string>)
    ensures "job-name" !in JobLabels(clusterName)
    ensures r == JobLabels(clusterName)["job-name" := JobName(clusterName)]
  {
    map["app" := "flink", "cluster" := clusterName, "job-name" := JobName(clusterName)]
  }

  lemma SuffixCancels(a: string, b: string, suffix: string)
    requires a + suffix == b + suffix
    ensures a == b
  {
    assert |a| == |b|;
    assert a == (a + suffix)[..|a|];
    assert b == (b + suffix)[..|b|];
  }

  /**
   * The naming scheme is collision-free: the JobManager deployment and service
   * share one name, each kind of name determines its cluster, and names of
   * different kinds never coincide, whatever the cluster names.
   */
  lemma NamesDistinct(a: string, b: string)
    ensures JobManagerDeploymentName(a) == JobManagerServiceName(a)
    ensures JobManagerDeploymentName(a) == JobManagerDeploymentName(b) ==> a == b
    ensures TaskManagerDeploymentName(a) == TaskManagerDeploymentName(b) ==> a == b
    ensures JobName(a) == JobName(b) ==> a == b
    ensures TaskManagerDeploymentName(a) != JobManagerDeploymentName(b)
    ensures JobName(a) != JobManagerDeploymentName(b)
    ensures JobName(a) != TaskManagerDeploymentName(b)
  {
    if JobManagerDeploymentName(a) == JobManagerDeploymentName(b) {
      SuffixCancels(a, b, "-jobmanager");
    }
    if TaskManagerDeploymentName(a) == TaskManagerDeploymentName(b) {
      SuffixCancels(a, b, "-taskmanager");
    }
    if JobName(a) == JobName(b) {
      SuffixCancels(a, b, "-job");
    }
    var tm, jm := TaskManagerDeploymentName(a), JobManagerDeploymentName(b);
    assert tm[|tm| - 11] == 't';
    assert jm[|jm| - 11] == '-';
    var job, tm' := JobName(a), TaskManagerDeploymentName(b);
    assert job[|job| - 1] == 'b';
    assert jm[|jm| - 1] == 'r';
    assert tm'[|tm'| - 1] == 'r';
  }
}
