/**
  The DocumentDB scheduler: start and stop every cluster carrying the given
  tags, one cluster at a time. Clusters are discovered under the resource
  type "rds:cluster".
 */
module DocumentDb {
  import opened Effects
  import opened Segments
  import opened Batch

  /** The `ClusterAction` enumeration, with its members' own names. */
  datatype ClusterAction = START | STOP

  /** `cluster_arn.split(":")[-1]` */
  function ClusterId(arn: string): string
  {
    LastSegment(arn, ':')
  }

  /** The request `_manage_cluster` issues: `start_db_cluster` for START,
      `stop_db_cluster` for STOP. */
  function ClusterCall(action: ClusterAction, clusterId: string): Call
  {
    match action
    case START => StartDbCluster(clusterId)
    case STOP => StopDbCluster(clusterId)
  }

  /** The verb of the success log line. */
  function PastVerb(action: ClusterAction): Verb
  {
    match action
    case START => Started
    case STOP => Stopped
  }

  function Targets(action: ClusterAction, arns: seq<string>): seq<Target>
  {
    seq(|arns|, i requires 0 <= i < |arns| =>
      Target(ClusterCall(action, ClusterId(arns[i])), ClusterId(arns[i])))
  }

  /** `_manage_cluster(action, cluster_id)` as the k-th request of its batch:
      true exactly when the request raised no ClientError; on a ClientError
      the cluster is reported once and false is returned. */
  method ManageCluster(action: ClusterAction, clusterId: string, k: nat, remote: Remote)
    returns (ok: bool, events: seq<Event>)
    ensures ok == remote(k, ClusterCall(action, clusterId))
    ensures events == Attempt(k, Target(ClusterCall(action, clusterId), clusterId), PastVerb(action), DocumentDbCluster, remote)
    ensures events[0] == Request(ClusterCall(action, clusterId))
    ensures ok ==> events[1] == Info(PastVerb(action), ClusterCall(action, clusterId))
    ensures !ok ==> events[1] == Report(DocumentDbCluster, clusterId)
  {
    var call, verb;
    match action {
      case START =>
        call, verb := StartDbCluster(clusterId), Started;
      case STOP =>
        call, verb := StopDbCluster(clusterId), Stopped;
    }
    if remote(k, call) {
      events := [Request(call), Info(verb, call)];
      ok := true;
    } else {
      events := [Request(call), Report(DocumentDbCluster, clusterId)];
      ok := false;
    }
  }

  /** The trace `_process_clusters(action, tags)` produces. */
  function ProcessClustersTrace(action: ClusterAction, tags: seq<TagFilter>, discover: Discovery, remote: Remote)
    : seq<Event>
  {
    var arns := discover(DocumentDbCluster, tags);
    [Query(DocumentDbCluster, tags)] + Run(Targets(action, arns), |arns|, PastVerb(action), DocumentDbCluster, remote)
  }

  /** `_process_clusters`: one `_manage_cluster` per discovered cluster, its
      boolean result discarded. */
  method ProcessClusters(action: ClusterAction, tags: seq<TagFilter>, discover: Discovery, remote: Remote)
    returns (trace: seq<Event>)
    ensures trace == ProcessClustersTrace(action, tags, discover, remote)
  {
    var arns := discover(DocumentDbCluster, tags);
    ghost var ts := Targets(action, arns);
    ghost var verb := PastVerb(action);
    trace := [Query(DocumentDbCluster, tags)];
    for i := 0 to |arns|
      invariant trace == [Query(DocumentDbCluster, tags)] + Run(ts, i, verb, DocumentDbCluster, remote)
    {
      var clusterId := LastSegment(arns[i], ':');
      var _, events := ManageCluster(action, clusterId, i, remote);
      trace := trace + events;
    }
  }

  /** Every discovered cluster gets exactly one request, in discovery order,
      whatever the earlier requests returned: `start_db_cluster` for START,
      `stop_db_cluster` for STOP. */
  lemma ClusterRequests(action: ClusterAction, tags: seq<TagFilter>, discover: Discovery, remote: Remote)
    ensures var arns := discover(DocumentDbCluster, tags);
            var cs := Requests(ProcessClustersTrace(action, tags, discover, remote));
            && |cs| == |arns|
            && (forall i :: 0 <= i < |arns| ==>
                  cs[i] == if action == START then StartDbCluster(LastSegment(arns[i], ':'))
                           else StopDbCluster(LastSegment(arns[i], ':')))
  {
    var arns := discover(DocumentDbCluster, tags);
    var ts := Targets(action, arns);
    RequestsAppend([Query(DocumentDbCluster, tags)], Run(ts, |arns|, PastVerb(action), DocumentDbCluster, remote));
    RunRequests(ts, |arns|, PastVerb(action), DocumentDbCluster, remote);
  }

  /** The i-th cluster's request is answered by the success line, "Started"
      for START and "Stopped" for STOP, or by one report naming the cluster,
      depending on that request alone: a failure at one index never keeps
      the next index from being attempted. */
  lemma ClusterOutcome(action: ClusterAction, tags: seq<TagFilter>, discover: Discovery, remote: Remote, i: nat)
    requires i < |discover(DocumentDbCluster, tags)|
    ensures var id := LastSegment(discover(DocumentDbCluster, tags)[i], ':');
            var call := ClusterCall(action, id);
            var t := ProcessClustersTrace(action, tags, discover, remote);
            && t[1 + 2 * i] == Request(call)
            && t[2 + 2 * i] == if !remote(i, call) then Report(DocumentDbCluster, id)
                               else if action == START then Info(Started, call) else Info(Stopped, call)
  {
    var arns := discover(DocumentDbCluster, tags);
    RunAt(Targets(action, arns), |arns|, PastVerb(action), DocumentDbCluster, remote, i);
  }

  /** The run queries the tag API once, first, for "rds:cluster"; reports
      go to the reporter as "DocumentDB cluster"; success lines open with
      "Started" for START and "Stopped" for STOP. */
  lemma TraceLabels(action: ClusterAction, tags: seq<TagFilter>, discover: Discovery, remote: Remote)
    ensures var t := ProcessClustersTrace(action, tags, discover, remote);
            forall j :: 0 <= j < |t| ==>
              && (t[j].Query? ==> j == 0 && t[j].tags == tags && ResourceType(t[j].kind) == "rds:cluster")
              && (t[j].Report? ==> ReportLabel(t[j].kind) == "DocumentDB cluster")
              && (t[j].Info? ==> VerbText(t[j].verb) == if action == START then "Started" else "Stopped")
              && !t[j].InvalidAction?
  {
    var arns := discover(DocumentDbCluster, tags);
    var t := ProcessClustersTrace(action, tags, discover, remote);
    forall j | 1 <= j < |t|
      ensures var e := t[j];
              !e.Query? && !e.InvalidAction? && (e.Report? ==> e.kind == DocumentDbCluster) && (e.Info? ==> e.verb == PastVerb(action))
    {
      RunEvent(Targets(action, arns), |arns|, PastVerb(action), DocumentDbCluster, remote, j - 1);
    }
  }

  /** `stop`: `_process_clusters(STOP, tags)`. */
  method StopClusters(tags: seq<TagFilter>, discover: Discovery, remote: Remote) returns (trace: seq<Event>)
    ensures trace == ProcessClustersTrace(STOP, tags, discover, remote)
    ensures var arns := discover(DocumentDbCluster, tags);
            |Requests(trace)| == |arns| &&
            forall i :: 0 <= i < |arns| ==> Requests(trace)[i] == StopDbCluster(ClusterId(arns[i]))
  {
    trace := ProcessClusters(STOP, tags, discover, remote);
    ClusterRequests(STOP, tags, discover, remote);
  }

  /** `start`: `_process_clusters(START, tags)`. */
  method StartClusters(tags: seq<TagFilter>, discover: Discovery, remote: Remote) returns (trace: seq<Event>)
    ensures trace == ProcessClustersTrace(START, tags, discover, remote)
    ensures var arns := discover(DocumentDbCluster, tags);
            |Requests(trace)| == |arns| &&
            forall i :: 0 <= i < |arns| ==> Requests(trace)[i] == StartDbCluster(ClusterId(arns[i]))
  {
    trace := ProcessClusters(START, tags, discover, remote);
    ClusterRequests(START, tags, discover, remote);
  }
}
