/**
  The Redshift scheduler: stop pauses and start resumes every cluster
  carrying the given tags, one cluster at a time.
 */
module Redshift {
  import opened Effects
  import opened Segments
  import opened Batch

  /** The client methods `method_map` may select. */
  datatype ClusterMethod = Pause | Resume

  /** `method_map`: the action names `_process_clusters` accepts. */
  const MethodMap: map<string, ClusterMethod> := map["stop" := Pause, "start" := Resume]

  /** `method_map` accepts exactly "stop", selecting pause, and "start",
      selecting resume. */
  lemma MethodMapLookup(action: string)
    ensures action in MethodMap <==> action == "stop" || action == "start"
    ensures action == "stop" ==> MethodMap[action] == Pause
    ensures action == "start" ==> MethodMap[action] == Resume
  {
  }

  /** `cluster_arn.split(":")[-1]` */
  function ClusterId(arn: string): string
  {
    LastSegment(arn, ':')
  }

  /** `action_method(ClusterIdentifier=cluster_id)` */
  function ClusterCall(m: ClusterMethod, clusterId: string): Call
  {
    match m
    case Pause => PauseCluster(clusterId)
    case Resume => ResumeCluster(clusterId)
  }

  /** `action_name`, the verb of the success line. */
  function ActionName(action: string): Verb
  {
    if action == "stop" then Stop else Start
  }

  function Targets(m: ClusterMethod, arns: seq<string>): seq<Target>
  {
    seq(|arns|, i requires 0 <= i < |arns| =>
      Target(ClusterCall(m, ClusterId(arns[i])), ClusterId(arns[i])))
  }

  /** The trace `_process_clusters(tags, action)` produces: an unknown action
      is logged and nothing else happens, not even discovery. */
  function ProcessClustersTrace(tags: seq<TagFilter>, action: string, discover: Discovery, remote: Remote)
    : seq<Event>
  {
    if action !in MethodMap then [InvalidAction(action)]
    else
      var arns := discover(RedshiftCluster, tags);
      [Query(RedshiftCluster, tags)] + Run(Targets(MethodMap[action], arns), |arns|, ActionName(action), RedshiftCluster, remote)
  }

  method ProcessClusters(tags: seq<TagFilter>, action: string, discover: Discovery, remote: Remote)
    returns (trace: seq<Event>)
    ensures trace == ProcessClustersTrace(tags, action, discover, remote)
  {
    if action !in MethodMap {
      trace := [InvalidAction(action)];
      return;
    }
    var actionMethod := MethodMap[action];
    var actionName := ActionName(action);
    var arns := discover(RedshiftCluster, tags);
    ghost var ts := Targets(actionMethod, arns);
    trace := [Query(RedshiftCluster, tags)];
    for i := 0 to |arns|
      invariant trace == [Query(RedshiftCluster, tags)] + Run(ts, i, actionName, RedshiftCluster, remote)
    {
      var clusterId := LastSegment(arns[i], ':');
      var call := ClusterCall(actionMethod, clusterId);
      var outcome := if remote(i, call) then Info(actionName, call) else Report(RedshiftCluster, clusterId);
      assert ts[i] == Target(call, clusterId);
      trace := trace + [Request(call), outcome];
    }
  }

  /** An action other than "stop" and "start" issues no request and reports
      nothing; it does not even query the tag API. */
  lemma InvalidActionDoesNothing(tags: seq<TagFilter>, action: string, discover: Discovery, remote: Remote)
    requires action != "stop" && action != "start"
    ensures ProcessClustersTrace(tags, action, discover, remote) == [InvalidAction(action)]
    ensures Requests(ProcessClustersTrace(tags, action, discover, remote)) == []
  {
    MethodMapLookup(action);
    assert [InvalidAction(action)][..0] == [];
  }

  /** "stop" pauses and "start" resumes every discovered cluster, exactly
      once each, in discovery order, after one query of the tag API. */
  lemma ClusterRequests(tags: seq<TagFilter>, action: string, discover: Discovery, remote: Remote)
    requires action == "stop" || action == "start"
    ensures var arns := discover(RedshiftCluster, tags);
            var t := ProcessClustersTrace(tags, action, discover, remote);
            var cs := Requests(t);
            && t[0] == Query(RedshiftCluster, tags)
            && |cs| == |arns|
            && (forall i :: 0 <= i < |arns| ==>
                  cs[i] == if action == "stop" then PauseCluster(LastSegment(arns[i], ':'))
                           else ResumeCluster(LastSegment(arns[i], ':')))
  {
    MethodMapLookup(action);
    var arns := discover(RedshiftCluster, tags);
    var m := MethodMap[action];
    var ts := Targets(m, arns);
    var r := Run(ts, |arns|, ActionName(action), RedshiftCluster, remote);
    var t := ProcessClustersTrace(tags, action, discover, remote);
    assert t == [Query(RedshiftCluster, tags)] + r;
    RequestsAppend([Query(RedshiftCluster, tags)], r);
    RunRequests(ts, |arns|, ActionName(action), RedshiftCluster, remote);
  }

  /** The i-th cluster's request is answered by the success line, "Stop"
      exactly for the "stop" action, or by one report naming the cluster,
      depending on that request alone. */
  lemma ClusterOutcome(tags: seq<TagFilter>, action: string, discover: Discovery, remote: Remote, i: nat)
    requires action == "stop" || action == "start"
    requires i < |discover(RedshiftCluster, tags)|
    ensures var id := LastSegment(discover(RedshiftCluster, tags)[i], ':');
            var call := ClusterCall(MethodMap[action], id);
            var t := ProcessClustersTrace(tags, action, discover, remote);
            && t[1 + 2 * i] == Request(call)
            && t[2 + 2 * i] == if !remote(i, call) then Report(RedshiftCluster, id)
                               else if action == "stop" then Info(Stop, call) else Info(Start, call)
  {
    MethodMapLookup(action);
    var arns := discover(RedshiftCluster, tags);
    RunAt(Targets(MethodMap[action], arns), |arns|, ActionName(action), RedshiftCluster, remote, i);
  }

  /** For "stop" and "start" the run queries the tag API once, first, for
      "redshift:cluster"; reports go to the reporter as "redshift cluster";
      success lines open with "Stop" for "stop" and "Start" for "start". */
  lemma TraceLabels(tags: seq<TagFilter>, action: string, discover: Discovery, remote: Remote)
    requires action == "stop" || action == "start"
    ensures var t := ProcessClustersTrace(tags, action, discover, remote);
            forall j :: 0 <= j < |t| ==>
              && (t[j].Query? ==> j == 0 && t[j].tags == tags && ResourceType(t[j].kind) == "redshift:cluster")
              && (t[j].Report? ==> ReportLabel(t[j].kind) == "redshift cluster")
              && (t[j].Info? ==> VerbText(t[j].verb) == if action == "stop" then "Stop" else "Start")
              && !t[j].InvalidAction?
  {
    MethodMapLookup(action);
    var arns := discover(RedshiftCluster, tags);
    var t := ProcessClustersTrace(tags, action, discover, remote);
    forall j | 1 <= j < |t|
      ensures var e := t[j];
              !e.Query? && !e.InvalidAction? && (e.Report? ==> e.kind == RedshiftCluster) && (e.Info? ==> e.verb == ActionName(action))
    {
      RunEvent(Targets(MethodMap[action], arns), |arns|, ActionName(action), RedshiftCluster, remote, j - 1);
    }
  }

  /** `stop`: `_process_clusters(tags, "stop")`, which never takes the
      invalid-action branch and pauses every tagged cluster. */
  method StopClusters(tags: seq<TagFilter>, discover: Discovery, remote: Remote) returns (trace: seq<Event>)
    ensures trace == ProcessClustersTrace(tags, "stop", discover, remote)
    ensures trace[0] == Query(RedshiftCluster, tags)
    ensures var arns := discover(RedshiftCluster, tags);
            |Requests(trace)| == |arns| &&
            forall i :: 0 <= i < |arns| ==> Requests(trace)[i] == PauseCluster(ClusterId(arns[i]))
  {
    trace := ProcessClusters(tags, "stop", discover, remote);
    ClusterRequests(tags, "stop", discover, remote);
  }

  /** `start`: `_process_clusters(tags, "start")`, which never takes the
      invalid-action branch and resumes every tagged cluster. */
  method StartClusters(tags: seq<TagFilter>, discover: Discovery, remote: Remote) returns (trace: seq<Event>)
    ensures trace == ProcessClustersTrace(tags, "start", discover, remote)
    ensures trace[0] == Query(RedshiftCluster, tags)
    ensures var arns := discover(RedshiftCluster, tags);
            |Requests(trace)| == |arns| &&
            forall i :: 0 <= i < |arns| ==> Requests(trace)[i] == ResumeCluster(ClusterId(arns[i]))
  {
    trace := ProcessClusters(tags, "start", discover, remote);
    ClusterRequests(tags, "start", discover, remote);
  }
}
