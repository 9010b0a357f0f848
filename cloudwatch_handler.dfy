/**
  The CloudWatch alarm scheduler: start enables and stop disables the actions
  of every alarm carrying the given tags, one alarm at a time.
 */
module CloudWatch {
  import opened Sequences
  import opened Effects
  import opened Segments
  import opened Batch

  /** `alarm_arn.split(":")[-1]` */
  function AlarmName(arn: string): string
  {
    LastSegment(arn, ':')
  }

  /** The request `enable_alarm_actions` or `disable_alarm_actions` with a
      one-element `AlarmNames` list. */
  function AlarmAction(enable: bool, alarmName: string): Call
  {
    if enable then EnableAlarmActions([alarmName]) else DisableAlarmActions([alarmName])
  }

  /** `action_past`, the verb of the success line. */
  function PastVerb(enable: bool): Verb
  {
    if enable then Enabled else Disabled
  }

  function Targets(enable: bool, arns: seq<string>): seq<Target>
  {
    seq(|arns|, i requires 0 <= i < |arns| =>
      Target(AlarmAction(enable, AlarmName(arns[i])), AlarmName(arns[i])))
  }

  /** The trace `_process_alarms(tags, enable)` produces. */
  function ProcessAlarmsTrace(tags: seq<TagFilter>, enable: bool, discover: Discovery, remote: Remote): seq<Event>
  {
    var arns := discover(Alarm, tags);
    [Query(Alarm, tags)] + Run(Targets(enable, arns), |arns|, PastVerb(enable), Alarm, remote)
  }

  method ProcessAlarms(tags: seq<TagFilter>, enable: bool, discover: Discovery, remote: Remote)
    returns (trace: seq<Event>)
    ensures trace == ProcessAlarmsTrace(tags, enable, discover, remote)
  {
    var actionPast := if enable then Enabled else Disabled;
    var arns := discover(Alarm, tags);
    ghost var ts := Targets(enable, arns);
    trace := [Query(Alarm, tags)];
    for i := 0 to |arns|
      invariant trace == [Query(Alarm, tags)] + Run(ts, i, actionPast, Alarm, remote)
    {
      var alarmName := LastSegment(arns[i], ':');
      var call := if enable then EnableAlarmActions([alarmName]) else DisableAlarmActions([alarmName]);
      var outcome := if remote(i, call) then Info(actionPast, call) else Report(Alarm, alarmName);
      assert ts[i] == Target(call, alarmName);
      AppendAssociative([Query(Alarm, tags)], Run(ts, i, actionPast, Alarm, remote), [Request(call), outcome]);
      trace := trace + [Request(call), outcome];
    }
  }

  /** Every discovered alarm gets exactly one request, in discovery order,
      naming just that alarm; start-side requests enable, stop-side disable. */
  lemma AlarmRequests(tags: seq<TagFilter>, enable: bool, discover: Discovery, remote: Remote)
    ensures var arns := discover(Alarm, tags);
            var cs := Requests(ProcessAlarmsTrace(tags, enable, discover, remote));
            && |cs| == |arns|
            && (forall i :: 0 <= i < |arns| ==>
                  cs[i] == if enable then EnableAlarmActions([LastSegment(arns[i], ':')])
                           else DisableAlarmActions([LastSegment(arns[i], ':')]))
  {
    var arns := discover(Alarm, tags);
    var ts := Targets(enable, arns);
    RequestsAppend([Query(Alarm, tags)], Run(ts, |arns|, PastVerb(enable), Alarm, remote));
    RunRequests(ts, |arns|, PastVerb(enable), Alarm, remote);
  }

  /** The i-th alarm's request is answered by the success line, "Enabled"
      when enabling and "Disabled" when disabling, or by one report naming
      the alarm; which one depends on that request alone. */
  lemma AlarmOutcome(tags: seq<TagFilter>, enable: bool, discover: Discovery, remote: Remote, i: nat)
    requires i < |discover(Alarm, tags)|
    ensures var name := LastSegment(discover(Alarm, tags)[i], ':');
            var call := AlarmAction(enable, name);
            var t := ProcessAlarmsTrace(tags, enable, discover, remote);
            && t[1 + 2 * i] == Request(call)
            && t[2 + 2 * i] == if !remote(i, call) then Report(Alarm, name)
                               else if enable then Info(Enabled, call) else Info(Disabled, call)
  {
    var arns := discover(Alarm, tags);
    RunAt(Targets(enable, arns), |arns|, PastVerb(enable), Alarm, remote, i);
  }

  /** The run queries the tag API once, first, for "cloudwatch:alarm";
      reports go to the reporter as "cloudwatch alarm"; success lines open
      with "Enabled" when enabling and "Disabled" when disabling. */
  lemma TraceLabels(tags: seq<TagFilter>, enable: bool, discover: Discovery, remote: Remote)
    ensures var t := ProcessAlarmsTrace(tags, enable, discover, remote);
            forall j :: 0 <= j < |t| ==>
              && (t[j].Query? ==> j == 0 && t[j].tags == tags && ResourceType(t[j].kind) == "cloudwatch:alarm")
              && (t[j].Report? ==> ReportLabel(t[j].kind) == "cloudwatch alarm")
              && (t[j].Info? ==> VerbText(t[j].verb) == if enable then "Enabled" else "Disabled")
              && !t[j].InvalidAction?
  {
    var arns := discover(Alarm, tags);
    var t := ProcessAlarmsTrace(tags, enable, discover, remote);
    forall j | 1 <= j < |t|
      ensures var e := t[j];
              !e.Query? && !e.InvalidAction? && (e.Report? ==> e.kind == Alarm) && (e.Info? ==> e.verb == PastVerb(enable))
    {
      RunEvent(Targets(enable, arns), |arns|, PastVerb(enable), Alarm, remote, j - 1);
    }
  }

  /** `stop`: disable the actions of every tagged alarm. */
  method StopAlarms(tags: seq<TagFilter>, discover: Discovery, remote: Remote) returns (trace: seq<Event>)
    ensures trace == ProcessAlarmsTrace(tags, false, discover, remote)
    ensures var arns := discover(Alarm, tags);
            |Requests(trace)| == |arns| &&
            forall i :: 0 <= i < |arns| ==> Requests(trace)[i] == DisableAlarmActions([AlarmName(arns[i])])
  {
    trace := ProcessAlarms(tags, false, discover, remote);
    AlarmRequests(tags, false, discover, remote);
  }

  /** `start`: enable the actions of every tagged alarm. */
  method StartAlarms(tags: seq<TagFilter>, discover: Discovery, remote: Remote) returns (trace: seq<Event>)
    ensures trace == ProcessAlarmsTrace(tags, true, discover, remote)
    ensures var arns := discover(Alarm, tags);
            |Requests(trace)| == |arns| &&
            forall i :: 0 <= i < |arns| ==> Requests(trace)[i] == EnableAlarmActions([AlarmName(arns[i])])
  {
    trace := ProcessAlarms(tags, true, discover, remote);
    AlarmRequests(tags, true, discover, remote);
  }
}
