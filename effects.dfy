/**
  The observable effects of a scheduler run. A run queries the tag API once,
  then issues control-plane requests; each request is followed either by an
  informational log line or by a report from the exception reporter. A run's
  behaviour is the sequence of these events, its trace.
 */
module Effects {
  import opened Sequences

  /** One entry of the `aws_tags` list: `{'Key': key, 'Values': values}`. */
  datatype TagFilter = TagFilter(key: string, values: seq<string>)

  /** The control-plane requests the four handlers issue, with their arguments. */
  datatype Call =
    | EnableAlarmActions(alarmNames: seq<string>)
    | DisableAlarmActions(alarmNames: seq<string>)
    | StartDbCluster(dbClusterIdentifier: string)
    | StopDbCluster(dbClusterIdentifier: string)
    | PauseCluster(clusterIdentifier: string)
    | ResumeCluster(clusterIdentifier: string)
    | UpdateService(cluster: string, service: string, desiredCount: int)

  /** The four kinds of resource the scheduler handles. */
  datatype ResourceKind = Alarm | DocumentDbCluster | RedshiftCluster | EcsService

  /** The resource type each handler passes to the tag API. */
  function ResourceType(k: ResourceKind): string
  {
    match k
    case Alarm => "cloudwatch:alarm"
    case DocumentDbCluster => "rds:cluster"
    case RedshiftCluster => "redshift:cluster"
    case EcsService => "ecs:service"
  }

  /** The resource label each handler passes to its exception reporter. */
  function ReportLabel(k: ResourceKind): string
  {
    match k
    case Alarm => "cloudwatch alarm"
    case DocumentDbCluster => "DocumentDB cluster"
    case RedshiftCluster => "redshift cluster"
    case EcsService => "ECS Service"
  }

  /** The verb a success line opens with. */
  datatype Verb = Enabled | Disabled | Started | Stopped | Stop | Start

  function VerbText(v: Verb): string
  {
    match v
    case Enabled => "Enabled"
    case Disabled => "Disabled"
    case Started => "Started"
    case Stopped => "Stopped"
    case Stop => "Stop"
    case Start => "Start"
  }

  datatype Event =
      /** the tag API query `get_resources(ResourceType(kind), tags)` */
    | Query(kind: ResourceKind, tags: seq<TagFilter>)
      /** a control-plane request was issued */
    | Request(call: Call)
      /** the success log or print line, e.g. "Enabled CloudWatch alarm a" */
    | Info(verb: Verb, call: Call)
      /** `<kind>_exception(ReportLabel(kind), id, exc)` after a ClientError */
    | Report(kind: ResourceKind, id: string)
      /** the error logged for an action outside the method map */
    | InvalidAction(action: string)

  /** The tag API: `discover(k, tags)` is the list of resource names
      `get_resources(ResourceType(k), tags)` returns, in order. */
  type Discovery = (ResourceKind, seq<TagFilter>) -> seq<string>

  /** The control plane: whether the request issued for the k-th discovered
      resource returns normally (true) or raises a ClientError (false). */
  type Remote = (nat, Call) -> bool

  /** The requests of a trace, in order. */
  function Requests(t: seq<Event>): (cs: seq<Call>)
    decreases |t|
  {
    if t == [] then []
    else Requests(t[..|t| - 1]) + (if t[|t| - 1].Request? then [t[|t| - 1].call] else [])
  }

  /** The resource ids handed to the exception reporter, in order. */
  function Reported(t: seq<Event>): (ids: seq<string>)
    decreases |t|
  {
    if t == [] then []
    else Reported(t[..|t| - 1]) + (if t[|t| - 1].Report? then [t[|t| - 1].id] else [])
  }

  lemma {:induction false} RequestsAppend(a: seq<Event>, b: seq<Event>)
    ensures Requests(a + b) == Requests(a) + Requests(b)
    decreases |b|
  {
    if b == [] {
      assert a + b == a;
      assert Requests(a) + [] == Requests(a);
    } else {
      var b', x := b[..|b| - 1], b[|b| - 1];
      RequestsAppend(a, b');
      SnocParts(b);
      AppendSnoc(a, b', x);
      SnocAppend(a + b', x);
      var last: seq<Call> := if x.Request? then [x.call] else [];
      AppendAssociative(Requests(a), Requests(b'), last);
    }
  }

  lemma {:induction false} ReportedAppend(a: seq<Event>, b: seq<Event>)
    ensures Reported(a + b) == Reported(a) + Reported(b)
    decreases |b|
  {
    if b == [] {
      assert a + b == a;
      assert Reported(a) + [] == Reported(a);
    } else {
      var b', x := b[..|b| - 1], b[|b| - 1];
      ReportedAppend(a, b');
      SnocParts(b);
      AppendSnoc(a, b', x);
      SnocAppend(a + b', x);
      var last: seq<string> := if x.Report? then [x.id] else [];
      AppendAssociative(Reported(a), Reported(b'), last);
    }
  }
}
