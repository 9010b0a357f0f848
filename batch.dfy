/**
  The skeleton every handler repeats: for each discovered resource, in
  discovery order, issue one control-plane request inside a `try`; on
  success log a line, on a ClientError hand the resource id to the exception
  reporter and go on with the next resource.
 */
module Batch {
  import opened Effects

  /** What one loop iteration needs once the resource name is parsed:
      the request to issue and the id to report if it fails. */
  datatype Target = Target(call: Call, id: string)

  /** One guarded request: `try: call(); log(verb) except ClientError: report(kind, id)`. */
  function Attempt(k: nat, t: Target, verb: Verb, kind: ResourceKind, remote: Remote): seq<Event>
  {
    [Request(t.call), if remote(k, t.call) then Info(verb, t.call) else Report(kind, t.id)]
  }

  /** The events of the loop's first n iterations over `ts`, the k-th target
      attempted k-th. */
  function Run(ts: seq<Target>, n: nat, verb: Verb, kind: ResourceKind, remote: Remote): (es: seq<Event>)
    requires n <= |ts|
    ensures |es| == 2 * n
  {
    if n == 0 then []
    else Run(ts, n - 1, verb, kind, remote) + Attempt(n - 1, ts[n - 1], verb, kind, remote)
  }

  /** The positions among the first n whose request raises a ClientError. */
  ghost function Failures(ts: seq<Target>, n: nat, remote: Remote): set<nat>
    requires n <= |ts|
  {
    set i: nat | i < n && !remote(i, ts[i].call)
  }

  /** Failure isolation: the events of the i-th target sit at positions
      2i and 2i+1 whatever happened to the others; the request is always
      issued, and the outcome depends on that request's answer alone. */
  lemma {:induction false} RunAt(ts: seq<Target>, n: nat, verb: Verb, kind: ResourceKind, remote: Remote, i: nat)
    requires i < n <= |ts|
    ensures Run(ts, n, verb, kind, remote)[2 * i] == Request(ts[i].call)
    ensures Run(ts, n, verb, kind, remote)[2 * i + 1] ==
              if remote(i, ts[i].call) then Info(verb, ts[i].call) else Report(kind, ts[i].id)
    decreases n
  {
    if i < n - 1 {
      RunAt(ts, n - 1, verb, kind, remote, i);
    }
  }

  /** Every event of the loop is a request, a success line with the loop's
      verb, or a report with the loop's resource kind. */
  lemma RunEvent(ts: seq<Target>, n: nat, verb: Verb, kind: ResourceKind, remote: Remote, j: nat)
    requires n <= |ts| && j < 2 * n
    ensures var e := Run(ts, n, verb, kind, remote)[j];
            && (e.Request? || e.Info? || e.Report?)
            && (e.Info? ==> e.verb == verb)
            && (e.Report? ==> e.kind == kind)
  {
    RunAt(ts, n, verb, kind, remote, j / 2);
  }

  /** An attempt issues exactly its one request, and reports its id
      exactly when that request fails. */
  lemma AttemptEffects(k: nat, t: Target, verb: Verb, kind: ResourceKind, remote: Remote)
    ensures Requests(Attempt(k, t, verb, kind, remote)) == [t.call]
    ensures Reported(Attempt(k, t, verb, kind, remote)) == if remote(k, t.call) then [] else [t.id]
  {
    var a := Attempt(k, t, verb, kind, remote);
    assert a[..1] == [Request(t.call)];
    assert a[..1][..0] == [];
    assert Requests(a[..1]) == [t.call];
    assert Reported(a[..1]) == [];
  }

  /** The requests of the first n targets, in order. */
  function Calls(ts: seq<Target>, n: nat): (cs: seq<Call>)
    requires n <= |ts|
  {
    seq(n, k requires 0 <= k < n => ts[k].call)
  }

  lemma CallsSnoc(ts: seq<Target>, n: nat)
    requires 0 < n <= |ts|
    ensures Calls(ts, n) == Calls(ts, n - 1) + [ts[n - 1].call]
  {
  }

  /** Exactly one request per target, in target order, and nothing else. */
  lemma {:induction false} RunRequests(ts: seq<Target>, n: nat, verb: Verb, kind: ResourceKind, remote: Remote)
    requires n <= |ts|
    ensures Requests(Run(ts, n, verb, kind, remote)) == Calls(ts, n)
    decreases n
  {
    if n == 0 {
      assert Run(ts, n, verb, kind, remote) == [];
    } else {
      RunRequests(ts, n - 1, verb, kind, remote);
      RunRequestsStep(ts, n, verb, kind, remote);
    }
  }

  lemma RunRequestsStep(ts: seq<Target>, n: nat, verb: Verb, kind: ResourceKind, remote: Remote)
    requires 0 < n <= |ts|
    requires Requests(Run(ts, n - 1, verb, kind, remote)) == Calls(ts, n - 1)
    ensures Requests(Run(ts, n, verb, kind, remote)) == Calls(ts, n)
  {
    var a := Attempt(n - 1, ts[n - 1], verb, kind, remote);
    RequestsAppend(Run(ts, n - 1, verb, kind, remote), a);
    AttemptEffects(n - 1, ts[n - 1], verb, kind, remote);
    CallsSnoc(ts, n);
  }

  /** The ids of the first n targets whose request fails, in target order. */
  function FailedIds(ts: seq<Target>, n: nat, remote: Remote): seq<string>
    requires n <= |ts|
  {
    if n == 0 then []
    else FailedIds(ts, n - 1, remote) + (if remote(n - 1, ts[n - 1].call) then [] else [ts[n - 1].id])
  }

  /** The reporter receives exactly the ids of the failing targets, in
      target order, and nothing else. */
  lemma {:induction false} RunReportedIds(ts: seq<Target>, n: nat, verb: Verb, kind: ResourceKind, remote: Remote)
    requires n <= |ts|
    ensures Reported(Run(ts, n, verb, kind, remote)) == FailedIds(ts, n, remote)
    decreases n
  {
    if n == 0 {
      assert Run(ts, n, verb, kind, remote) == [];
    } else {
      RunReportedIds(ts, n - 1, verb, kind, remote);
      RunReportedIdsStep(ts, n, verb, kind, remote);
    }
  }

  lemma RunReportedIdsStep(ts: seq<Target>, n: nat, verb: Verb, kind: ResourceKind, remote: Remote)
    requires 0 < n <= |ts|
    requires Reported(Run(ts, n - 1, verb, kind, remote)) == FailedIds(ts, n - 1, remote)
    ensures Reported(Run(ts, n, verb, kind, remote)) == FailedIds(ts, n, remote)
  {
    var a := Attempt(n - 1, ts[n - 1], verb, kind, remote);
    assert Run(ts, n, verb, kind, remote) == Run(ts, n - 1, verb, kind, remote) + a;
    ReportedAppend(Run(ts, n - 1, verb, kind, remote), a);
    AttemptEffects(n - 1, ts[n - 1], verb, kind, remote);
  }

  /** Exactly as many reports as failing requests: each ClientError is
      reported once, and nothing else is reported. */
  lemma RunReports(ts: seq<Target>, n: nat, verb: Verb, kind: ResourceKind, remote: Remote)
    requires n <= |ts|
    ensures |Reported(Run(ts, n, verb, kind, remote))| == |Failures(ts, n, remote)|
  {
    RunReportedIds(ts, n, verb, kind, remote);
    FailedIdsCount(ts, n, remote);
  }

  lemma {:induction false} FailedIdsCount(ts: seq<Target>, n: nat, remote: Remote)
    requires n <= |ts|
    ensures |FailedIds(ts, n, remote)| == |Failures(ts, n, remote)|
    decreases n
  {
    if n == 0 {
      assert Failures(ts, n, remote) == {};
    } else {
      FailedIdsCount(ts, n - 1, remote);
      FailuresSnoc(ts, n, remote);
    }
  }

  lemma FailuresSnoc(ts: seq<Target>, n: nat, remote: Remote)
    requires 0 < n <= |ts|
    ensures |Failures(ts, n, remote)| == |Failures(ts, n - 1, remote)| + (if remote(n - 1, ts[n - 1].call) then 0 else 1)
  {
    var fs := Failures(ts, n - 1, remote);
    assert n - 1 !in fs;
    if remote(n - 1, ts[n - 1].call) {
      assert Failures(ts, n, remote) == fs;
    } else {
      assert Failures(ts, n, remote) == fs + {n - 1};
    }
  }
}
