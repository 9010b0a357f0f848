/**
  The ECS service scheduler: stop sets the desired task count of every
  service carrying the given tags to 0, start sets it to 1.

  Like every handler, it derives the resource id before the guarded
  request; unlike the others, whose `split(":")[-1]` is always defined, the
  parse here also indexes `split("/")[-2]`. An ARN without a "/" raises an
  IndexError that is not a ClientError, so it escapes the loop and ends the
  whole batch. Services discovered after it get no request.
 */
module Ecs {
  import opened Effects
  import opened Segments
  import opened Batch

  /** The result of `_parse_service_arn`: the (cluster, service) pair, or
      the IndexError raised by `service_arn.split("/")[-2]`. */
  datatype ServiceArn = ServiceRef(cluster: string, service: string) | IndexError

  /** `_parse_service_arn`: `(arn.split("/")[-2], arn.split("/")[-1])`;
      the `[-2]` index fails exactly when the ARN has no "/". */
  function ParseServiceArn(arn: string): (r: ServiceArn)
    ensures r.ServiceRef? <==> '/' in arn
  {
    var parts := Split(arn, '/');
    SplitCount(arn, '/');
    if |parts| >= 2 then ServiceRef(parts[|parts| - 2], parts[|parts| - 1]) else IndexError
  }

  /** The service is the text after the last "/" and the cluster the text
      before it back to the previous "/" (or to the start): the last segment
      of the ARN with its own last segment and that "/" removed. Neither
      contains a "/". */
  lemma ParseServiceArnSpec(arn: string)
    requires '/' in arn
    ensures var r := ParseServiceArn(arn);
            && '/' !in r.cluster && '/' !in r.service
            && r.service == LastSegment(arn, '/')
            && |r.service| < |arn|
            && r.cluster == LastSegment(arn[..|arn| - |r.service| - 1], '/')
  {
    var parts := Split(arn, '/');
    var n := |parts|;
    SplitCount(arn, '/');
    var init := parts[..n - 1];
    var prefix := Join(init, '/');
    assert arn == prefix + ['/'] + parts[n - 1] by {
      JoinSplit(arn, '/');
    }
    assert arn[..|arn| - |parts[n - 1]| - 1] == prefix;
    assert Split(prefix, '/') == init by {
      SplitJoin(init, '/');
    }
    assert init[|init| - 1] == parts[n - 2];
  }

  /** The verb of the success line: "Stop" exactly for a desired count of 0. */
  function CountVerb(desiredCount: int): Verb
  {
    if desiredCount == 0 then Stop else Start
  }

  /** `_update_service_count` as the k-th request of its batch: one
      `update_service` request; the success line, or one report naming the
      service when it raises a ClientError, which is not re-raised. */
  method UpdateServiceCount(k: nat, cluster: string, service: string, desiredCount: int, remote: Remote)
    returns (events: seq<Event>)
    ensures events == Attempt(k, Target(UpdateService(cluster, service, desiredCount), service),
                              CountVerb(desiredCount), EcsService, remote)
    ensures events[0] == Request(UpdateService(cluster, service, desiredCount))
    ensures events[1].Info? <==> remote(k, UpdateService(cluster, service, desiredCount))
    ensures events[1].Info? ==> (events[1].verb == Stop <==> desiredCount == 0)
    ensures !events[1].Info? ==> events[1] == Report(EcsService, service)
  {
    var call := UpdateService(cluster, service, desiredCount);
    if remote(k, call) {
      var action := if desiredCount == 0 then Stop else Start;
      events := [Request(call), Info(action, call)];
    } else {
      events := [Request(call), Report(EcsService, service)];
    }
  }

  /** The position of the first discovered ARN without a "/", or the
      number of ARNs when every one has one. */
  function FirstMalformed(arns: seq<string>): (j: nat)
    ensures j <= |arns|
    ensures forall m :: 0 <= m < j ==> '/' in arns[m]
    ensures j < |arns| ==> '/' !in arns[j]
    decreases |arns|
  {
    if arns == [] || '/' !in arns[0] then 0
    else 1 + FirstMalformed(arns[1..])
  }

  /** The targets of the first n services, whose ARNs all have a "/". */
  function Targets(desiredCount: int, arns: seq<string>, n: nat): seq<Target>
    requires n <= |arns|
    requires forall m :: 0 <= m < n ==> '/' in arns[m]
  {
    seq(n, i requires 0 <= i < n =>
      var r := ParseServiceArn(arns[i]);
      Target(UpdateService(r.cluster, r.service, desiredCount), r.service))
  }

  /** How `stop` or `start` ends: normally, or by the IndexError raised
      while parsing the ARN at `index`. */
  datatype Outcome = Returned | Raised(index: nat)

  /** The trace of the loop `stop` (count 0) and `start` (count 1) run: the
      services before the first malformed ARN, each guarded on its own. */
  function UpdateServicesTrace(tags: seq<TagFilter>, desiredCount: int, discover: Discovery, remote: Remote)
    : seq<Event>
  {
    var arns := discover(EcsService, tags);
    var j := FirstMalformed(arns);
    [Query(EcsService, tags)] + Run(Targets(desiredCount, arns, j), j, CountVerb(desiredCount), EcsService, remote)
  }

  function UpdateServicesOutcome(tags: seq<TagFilter>, discover: Discovery): Outcome
  {
    var arns := discover(EcsService, tags);
    var j := FirstMalformed(arns);
    if j < |arns| then Raised(j) else Returned
  }

  /** Parsing the i-th ARN, at or before the first malformed one, fails
      exactly at the first malformed one, and otherwise yields the i-th
      target. */
  lemma ParseStep(arns: seq<string>, desiredCount: int, i: nat)
    requires i < |arns| && i <= FirstMalformed(arns)
    ensures var p := ParseServiceArn(arns[i]);
            var j := FirstMalformed(arns);
            && (p.IndexError? ==> i == j)
            && (p.ServiceRef? ==>
                  i < j && Targets(desiredCount, arns, j)[i] == Target(UpdateService(p.cluster, p.service, desiredCount), p.service))
  {
  }

  /** The loop `stop` and `start` each run: for every discovered ARN,
      `_parse_service_arn` outside any guard, then `_update_service_count`.
      The first ARN without a "/" raises and ends the loop. */
  method UpdateServices(tags: seq<TagFilter>, desiredCount: int, discover: Discovery, remote: Remote)
    returns (trace: seq<Event>, outcome: Outcome)
    ensures trace == UpdateServicesTrace(tags, desiredCount, discover, remote)
    ensures outcome == UpdateServicesOutcome(tags, discover)
  {
    var arns := discover(EcsService, tags);
    ghost var j := FirstMalformed(arns);
    ghost var ts := Targets(desiredCount, arns, j);
    var verb := CountVerb(desiredCount);
    trace := [Query(EcsService, tags)];
    outcome := Returned;
    var i := 0;
    while i < |arns|
      invariant i <= j
      invariant trace == [Query(EcsService, tags)] + Run(ts, i, verb, EcsService, remote)
    {
      var parsed := ParseServiceArn(arns[i]);
      ParseStep(arns, desiredCount, i);
      if parsed.IndexError? {
        outcome := Raised(i);
        return;
      }
      var events := UpdateServiceCount(i, parsed.cluster, parsed.service, desiredCount, remote);
      trace := trace + events;
      i := i + 1;
    }
  }

  /** Every service before the first malformed ARN gets exactly one
      `update_service` request, in discovery order, with the cluster and
      service parsed from its ARN and the given count; no later service gets
      one. The batch ends normally exactly when every ARN has a "/". */
  lemma ServiceRequests(tags: seq<TagFilter>, desiredCount: int, discover: Discovery, remote: Remote)
    ensures var arns := discover(EcsService, tags);
            var j := FirstMalformed(arns);
            var cs := Requests(UpdateServicesTrace(tags, desiredCount, discover, remote));
            && |cs| == j
            && (forall i :: 0 <= i < j ==>
                  cs[i] == UpdateService(ParseServiceArn(arns[i]).cluster, ParseServiceArn(arns[i]).service, desiredCount))
            && (UpdateServicesOutcome(tags, discover) == Returned <==> forall m :: 0 <= m < |arns| ==> '/' in arns[m])
  {
    var arns := discover(EcsService, tags);
    var j := FirstMalformed(arns);
    var ts := Targets(desiredCount, arns, j);
    RequestsAppend([Query(EcsService, tags)], Run(ts, j, CountVerb(desiredCount), EcsService, remote));
    RunRequests(ts, j, CountVerb(desiredCount), EcsService, remote);
  }

  /** A malformed ARN at position m aborts the batch: the IndexError is
      raised at or before m and no service from m on is requested. */
  lemma MalformedArnAbortsBatch(tags: seq<TagFilter>, desiredCount: int, discover: Discovery, remote: Remote, m: nat)
    requires m < |discover(EcsService, tags)| && '/' !in discover(EcsService, tags)[m]
    ensures UpdateServicesOutcome(tags, discover).Raised?
    ensures UpdateServicesOutcome(tags, discover).index <= m
    ensures |Requests(UpdateServicesTrace(tags, desiredCount, discover, remote))| <= m
  {
    ServiceRequests(tags, desiredCount, discover, remote);
  }

  /** Before the first malformed ARN, a ClientError is isolated: the i-th
      service's request is answered by the success line or by one report
      naming the service, depending on that request alone. */
  lemma ServiceOutcome(tags: seq<TagFilter>, desiredCount: int, discover: Discovery, remote: Remote, i: nat)
    requires i < FirstMalformed(discover(EcsService, tags))
    ensures var p := ParseServiceArn(discover(EcsService, tags)[i]);
            var call := UpdateService(p.cluster, p.service, desiredCount);
            var t := UpdateServicesTrace(tags, desiredCount, discover, remote);
            && t[1 + 2 * i] == Request(call)
            && t[2 + 2 * i] == if !remote(i, call) then Report(EcsService, p.service)
                               else if desiredCount == 0 then Info(Stop, call) else Info(Start, call)
  {
    var arns := discover(EcsService, tags);
    var j := FirstMalformed(arns);
    RunAt(Targets(desiredCount, arns, j), j, CountVerb(desiredCount), EcsService, remote, i);
  }

  /** The run queries the tag API once, first, for "ecs:service"; reports
      go to the reporter as "ECS Service"; success lines open with "Stop"
      exactly when the desired count is 0, and "Start" otherwise. */
  lemma TraceLabels(tags: seq<TagFilter>, desiredCount: int, discover: Discovery, remote: Remote)
    ensures var t := UpdateServicesTrace(tags, desiredCount, discover, remote);
            forall j :: 0 <= j < |t| ==>
              && (t[j].Query? ==> j == 0 && t[j].tags == tags && ResourceType(t[j].kind) == "ecs:service")
              && (t[j].Report? ==> ReportLabel(t[j].kind) == "ECS Service")
              && (t[j].Info? ==> VerbText(t[j].verb) == if desiredCount == 0 then "Stop" else "Start")
              && !t[j].InvalidAction?
  {
    var arns := discover(EcsService, tags);
    var m := FirstMalformed(arns);
    var t := UpdateServicesTrace(tags, desiredCount, discover, remote);
    forall j | 1 <= j < |t|
      ensures var e := t[j];
              !e.Query? && !e.InvalidAction? && (e.Report? ==> e.kind == EcsService) && (e.Info? ==> e.verb == CountVerb(desiredCount))
    {
      RunEvent(Targets(desiredCount, arns, m), m, CountVerb(desiredCount), EcsService, remote, j - 1);
    }
  }

  /** `stop`: desired count 0 for every tagged service. */
  method StopServices(tags: seq<TagFilter>, discover: Discovery, remote: Remote) returns (trace: seq<Event>, outcome: Outcome)
    ensures trace == UpdateServicesTrace(tags, 0, discover, remote)
    ensures outcome == UpdateServicesOutcome(tags, discover)
    ensures forall c :: c in Requests(trace) ==> c.UpdateService? && c.desiredCount == 0
  {
    trace, outcome := UpdateServices(tags, 0, discover, remote);
    ServiceRequests(tags, 0, discover, remote);
  }

  /** `start`: desired count 1 for every tagged service. */
  method StartServices(tags: seq<TagFilter>, discover: Discovery, remote: Remote) returns (trace: seq<Event>, outcome: Outcome)
    ensures trace == UpdateServicesTrace(tags, 1, discover, remote)
    ensures outcome == UpdateServicesOutcome(tags, discover)
    ensures forall c :: c in Requests(trace) ==> c.UpdateService? && c.desiredCount == 1
  {
    trace, outcome := UpdateServices(tags, 1, discover, remote);
    ServiceRequests(tags, 1, discover, remote);
  }
}
