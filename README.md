# Tag-driven resource scheduler: the four batch handlers

This project models the core of an AWS resource scheduler. It covers four
handlers. Each one finds every resource carrying a set of tags, then starts
or stops those resources one at a time:

- **CloudWatch alarms** (`cloudwatch_handler.py`): `start` enables and `stop`
  disables each tagged alarm's actions.
- **DocumentDB clusters** (`documentdb_handler.py`): `start_db_cluster` and
  `stop_db_cluster` for each tagged cluster.
- **Redshift clusters** (`redshift_handler.py`): `resume_cluster` and
  `pause_cluster` chosen through a `method_map`. Any action other than
  "stop" and "start" is logged and nothing else happens.
- **ECS services** (`ecs_handler.py`): `update_service` with desired count 0
  (stop) or 1 (start).

Every handler runs the same batch:

1. Query the tag API once, for its own resource type.
2. For each returned resource name, in order, derive the resource id: the
   text after the last ":", or for ECS the last two "/"-separated segments.
3. Issue one control-plane request inside a `try`.
4. If the request succeeds, write a success line. If it raises a
   `ClientError`, hand the id to the exception reporter and go on with the
   next resource.

Every handler derives the id before its `try`. For three of them that step
cannot fail: `split(":")[-1]` is always defined. ECS also takes
`split("/")[-2]`, which raises an `IndexError` when the ARN has no "/".
That error is not a `ClientError`, so no handler would catch it. It ends
the whole batch, and later services get no request.

The model is organised as follows:

- **Tag API and control plane.** Both are parameters. `discover(kind, tags)`
  is the list of names the tag API returns. `remote(k, call)` says whether
  the k-th request returns normally (true) or raises a `ClientError` (false).
- **Trace.** A run's observable behaviour is the sequence of events it
  produces:
  - the tag query;
  - each request;
  - each success line, with its verb ("Enabled", "Stopped", "Stop", …);
  - each exception report, with the reporter's resource label and id;
  - Redshift's invalid-action error.
- **Loops.** Each handler's loop is a `method` with loop invariants. It is
  proved equal to a trace function built from `Batch.Run`: the loop's first
  n iterations.
- **Lemmas.** Lemmas over that function state:
  - which requests are issued, in what order, with what arguments;
  - that a failure at one position never changes what happens at another;
  - that the reporter receives exactly the ids of the failing requests, in order;
  - which resource type, reporter label and success verb each handler uses;
  - for ECS, exactly where a malformed ARN cuts the batch short.
- **Splitting.** Python's `str.split` is modelled exactly by
  `Segments.Split`, with `Join` as its inverse. `[-1]` and `[-2]` are then
  indexings that are proved to mean "text after the last separator" and "an
  IndexError exactly when the separator is absent".

Resource types, reporter labels and success verbs are enumerations. Their
text is given by `Effects.ResourceType`, `Effects.ReportLabel` and
`Effects.VerbText`, with the strings the source uses.

## Model

| member | source | states |
|---|---|---|
| Segments.Split | package/scheduler/cloudwatch_handler.py:52 | `str.split(sep)` yields at least one piece and no piece contains the separator |
| Segments.JoinSplit | package/scheduler/cloudwatch_handler.py:52 | joining the pieces of a split with the separator gives the original name back |
| Segments.SplitJoin | package/scheduler/ecs_handler.py:33-34 | splitting the join of separator-free pieces gives exactly those pieces |
| Segments.SplitCount | package/scheduler/ecs_handler.py:34 | a split has at least two pieces (so `[-2]` exists) exactly when the separator occurs |
| Segments.LastSegmentSpec | package/scheduler/documentdb_handler.py:67 | `split(sep)[-1]` is a separator-free suffix of the name; it is the whole name exactly when there is no separator, and otherwise directly follows a separator |
| Batch.Run | package/scheduler/redshift_handler.py:55-62 | the guarded loop's first n iterations produce exactly two events each, so no iteration is skipped or emits extra events |
| Batch.RunAt | package/scheduler/redshift_handler.py:55-62 | failure isolation: the i-th resource's request and outcome sit at positions 2i and 2i+1, the request is always issued, and the outcome depends only on that request's own answer |
| Batch.AttemptEffects | package/scheduler/cloudwatch_handler.py:53-58 | one guarded request issues exactly that request and reports its id exactly when it raises |
| Batch.RunRequests | package/scheduler/documentdb_handler.py:66-68 | the loop issues exactly one request per resource, in discovery order, and nothing else |
| Batch.RunEvent | package/scheduler/redshift_handler.py:55-62 | every event of the loop is a request, a success line with the loop's verb, or a report with the loop's resource label |
| Batch.RunReportedIds | package/scheduler/ecs_handler.py:48-57 | the reporter receives exactly the ids of the failing requests, in discovery order, and nothing else |
| Batch.RunReports | package/scheduler/ecs_handler.py:48-57 | the number of reports equals the number of failing requests |
| CloudWatch.ProcessAlarms | package/scheduler/cloudwatch_handler.py:35-58 | the loop's trace is one tag query for "cloudwatch:alarm" followed by the guarded attempt for each alarm name, in order |
| CloudWatch.AlarmRequests | package/scheduler/cloudwatch_handler.py:42-54 | one request per discovered alarm, in order, naming only that alarm (`split(":")[-1]`): enable when enabling, disable otherwise |
| CloudWatch.AlarmOutcome | package/scheduler/cloudwatch_handler.py:49-58 | the i-th alarm's request is followed by "Enabled"/"Disabled" on success, or by one "cloudwatch alarm" report naming it on a ClientError |
| CloudWatch.TraceLabels | package/scheduler/cloudwatch_handler.py:49-58 | one tag query, first, for "cloudwatch:alarm" with the caller's tags; reports labelled "cloudwatch alarm"; success lines open with "Enabled" when enabling and "Disabled" otherwise |
| CloudWatch.StopAlarms | package/scheduler/cloudwatch_handler.py:60-67 | `stop` disables the actions of every discovered alarm, one request each, in order |
| CloudWatch.StartAlarms | package/scheduler/cloudwatch_handler.py:69-76 | `start` enables the actions of every discovered alarm, one request each, in order |
| DocumentDb.ManageCluster | package/scheduler/documentdb_handler.py:37-57 | returns true exactly when the request raised no ClientError; issues `start_db_cluster` for START and `stop_db_cluster` for STOP; logs "Started"/"Stopped" on success and reports the cluster on failure |
| DocumentDb.ProcessClusters | package/scheduler/documentdb_handler.py:59-68 | the loop's trace is one query for "rds:cluster" followed by one `_manage_cluster` attempt per cluster, in order, its result discarded |
| DocumentDb.ClusterRequests | package/scheduler/documentdb_handler.py:66-68 | one request per discovered cluster, in order, for the id after the last ":", whatever earlier requests returned |
| DocumentDb.ClusterOutcome | package/scheduler/documentdb_handler.py:47-57 | the i-th cluster's request is followed by its success line or by one "DocumentDB cluster" report, depending only on that request |
| DocumentDb.TraceLabels | package/scheduler/documentdb_handler.py:47-67 | one tag query, first, for "rds:cluster" with the caller's tags; reports labelled "DocumentDB cluster"; success lines open with "Started" for START and "Stopped" for STOP |
| DocumentDb.StopClusters | package/scheduler/documentdb_handler.py:70-83 | `stop` issues `stop_db_cluster` for every discovered cluster, in order |
| DocumentDb.StartClusters | package/scheduler/documentdb_handler.py:85-98 | `start` issues `start_db_cluster` for every discovered cluster, in order |
| Redshift.MethodMapLookup | package/scheduler/redshift_handler.py:43-46 | the method map accepts exactly "stop" (pause) and "start" (resume) |
| Redshift.ProcessClusters | package/scheduler/redshift_handler.py:35-62 | an unknown action yields only the invalid-action error; otherwise one query for "redshift:cluster" and one guarded attempt per cluster, in order |
| Redshift.InvalidActionDoesNothing | package/scheduler/redshift_handler.py:48-50 | an action other than "stop"/"start" issues no request and does not even query the tag API |
| Redshift.ClusterRequests | package/scheduler/redshift_handler.py:52-58 | after the tag query, "stop" pauses and "start" resumes every discovered cluster exactly once, in order |
| Redshift.ClusterOutcome | package/scheduler/redshift_handler.py:53-62 | the i-th cluster's request is followed by a "Stop"/"Start" line or by one "redshift cluster" report, depending only on that request |
| Redshift.TraceLabels | package/scheduler/redshift_handler.py:42-62 | for "stop"/"start": one tag query, first, for "redshift:cluster" with the caller's tags; reports labelled "redshift cluster"; success lines open with "Stop" for "stop" and "Start" for "start" |
| Redshift.StopClusters | package/scheduler/redshift_handler.py:64-77 | `stop` never takes the invalid-action branch and pauses every discovered cluster |
| Redshift.StartClusters | package/scheduler/redshift_handler.py:79-92 | `start` never takes the invalid-action branch and resumes every discovered cluster |
| Ecs.ParseServiceArn | package/scheduler/ecs_handler.py:24-35 | parsing succeeds exactly when the ARN contains "/"; otherwise it is the IndexError of `[-2]` |
| Ecs.ParseServiceArnSpec | package/scheduler/ecs_handler.py:33-34 | the service is the text after the last "/" and the cluster the segment before it; neither contains "/" |
| Ecs.UpdateServiceCount | package/scheduler/ecs_handler.py:37-57 | one `update_service` request with the given cluster, service and count; on success a line whose verb is "Stop" exactly when the count is 0; on a ClientError one "ECS Service" report naming the service, not re-raised |
| Ecs.FirstMalformed | package/scheduler/ecs_handler.py:76-78 | the position of the first ARN without "/": every earlier ARN has one, and the ARN there has none |
| Ecs.UpdateServices | package/scheduler/ecs_handler.py:76-78 | the loop's trace covers exactly the services before the first malformed ARN; it ends by raising there, or returns normally when there is none |
| Ecs.ServiceRequests | package/scheduler/ecs_handler.py:76-78 | one request per service before the first malformed ARN, in order, with the parsed cluster and service; the batch returns normally exactly when every ARN has "/" |
| Ecs.MalformedArnAbortsBatch | package/scheduler/ecs_handler.py:77 | an ARN without "/" at position m makes the batch raise at or before m, and fewer than m+1 services are requested |
| Ecs.ServiceOutcome | package/scheduler/ecs_handler.py:48-57 | before the abort point, the i-th service's request is followed by its success line or by one report naming it, depending only on that request |
| Ecs.TraceLabels | package/scheduler/ecs_handler.py:48-57 | one tag query, first, for "ecs:service" with the caller's tags; reports labelled "ECS Service"; success lines open with "Stop" exactly when the desired count is 0 |
| Ecs.StopServices | package/scheduler/ecs_handler.py:59-78 | `stop` requests desired count 0 and nothing else |
| Ecs.StartServices | package/scheduler/ecs_handler.py:80-99 | `start` requests desired count 1 and nothing else |

## Left out

- Client construction and region selection (`__init__` of each handler) are not modelled. Each handler is given its tag API and control plane as parameters.
- The tag API (`FilterByTags.get_resources`) is not part of this model. It is the parameter `discover`. Its pagination, and any failure it raises, are not modelled. Such a failure would leave the handler before the loop.
- The exception reporters (`cloudwatch_exception`, `documentdb_exception`, `redshift_exception`, `ecs_exception`) are not part of this model. A report records only the resource label and id. The model assumes the reporter returns normally. The error classification and the `ClientError` contents are not modelled.
- Exceptions other than `ClientError` raised by a control-plane request are not modelled. The only such exception in the model is the ECS `IndexError` from parsing.
- A success line records its verb and the request it follows. The rest of the message text is not modelled. Nor is the fact that some handlers write it both to the logger and to standard output.
- The unused local variables `action` and `action_present` in `_process_alarms` are not modelled.
- The control plane's answer to a request is a function of the request and its position in the batch. Any further dependence on time or on earlier requests is abstracted into that choice.
- The ECS handler's `stop` and `start` repeat the same loop. The model writes that loop once, as `Ecs.UpdateServices`, with the desired count as a parameter.
- Batch.RunReports: states only that the number of reports equals the number of failing requests. Which ids are reported, and in what order, is stated by `Batch.RunReportedIds`, and their positions in the trace by the `*Outcome` lemmas.
- The docstring of `_update_service_count` (ecs_handler.py:45-46) says it raises `ClientError`. The code catches and reports it instead (ecs_handler.py:56-57). The model follows the code.
- The integration test under `tests/` calls `filter_alarms` and `stop(key, value)`. The current alarm handler has neither, so the test is not modelled.
