/** The issue and report model every diagnostic check produces. */
module Report {
  import opened Wrappers
  import opened Kube
  import Decimal
  import Seqs

  /** Three levels, used for emphasis only; no ordering between them is defined. */
  datatype Severity = Info | Warning | Error

  datatype DiagnosticIssue = DiagnosticIssue(
    resource: string,          // e.g. a pod name, or a fixed label such as "Node"
    message: string,
    severity: Severity,
    namespace: Option<string>,
    reason: Option<string>,    // optional machine-readable reason code
    timestamp: Option<string>) // ISO 8601 text

  /** `DiagnosticIssue::new`: the three given fields as they are, the optional ones absent. */
  function NewIssue(resource: string, message: string, severity: Severity): (issue: DiagnosticIssue)
    ensures issue.resource == resource && issue.message == message
    ensures issue.severity == severity
    ensures issue.namespace == None && issue.reason == None && issue.timestamp == None
  {
    DiagnosticIssue(resource, message, severity, None, None, None)
  }

  /** A one-line summary and the issues in the order they were emitted. */
  datatype DiagnosticReport = DiagnosticReport(summary: string, issues: seq<DiagnosticIssue>)

  /** How a check run ends when it does not return a report. */
  datatype CheckError =
    | ListFailed(cause: ListError)  // the list call failed and `?` propagated its error
    | Panicked(message: string)     // an `unwrap()` on `None` aborted the check

  /** The panic message of `Option::unwrap` on `None`. */
  const UnwrapOnNone := "called `Option::unwrap()` on a `None` value"

  /** `anyhow::Result<DiagnosticReport>`, with a panic made an explicit outcome. */
  type Outcome = Result<DiagnosticReport, CheckError>

  /**
   * `format!("{} <kind> analyzed", count)`: the count's digits, then
   * " <kind> analyzed"; the digits read back as the count.
   */
  function Summary(count: nat, kind: string): (r: string)
    ensures |r| > |kind| + 10
    ensures r[|r| - |kind| - 10..] == " " + kind + " analyzed"
    ensures Decimal.IsDigits(r[..|r| - |kind| - 10]) && Decimal.DecimalValue(r[..|r| - |kind| - 10]) == count
    ensures r[0] == '0' ==> r == "0 " + kind + " analyzed"
  {
    var digits := Decimal.NatToString(count);
    Decimal.NatToStringRoundTrip(count);
    assert (digits + " " + kind + " analyzed")[..|digits|] == digits;
    digits + " " + kind + " analyzed"
  }

  /** The pods check's summary for three listed pods. */
  lemma SummaryOfThreePods()
    ensures Summary(3, "pods") == "3 pods analyzed"
  {
    assert Decimal.NatToString(3) == "3";
  }

  /** The summary text determines the count it was made from. */
  lemma SummaryDeterminesCount(m: nat, n: nat, kind: string)
    ensures Summary(m, kind) == Summary(n, kind) ==> m == n
  {
    var sm, sn := Decimal.NatToString(m), Decimal.NatToString(n);
    var tail := " " + kind + " analyzed";
    if Summary(m, kind) == Summary(n, kind) {
      assert sm + tail == Summary(m, kind);
      assert sn + tail == Summary(n, kind);
      assert |sm| == |sn|;
      assert sm == (sm + tail)[..|sm|];
      assert sn == (sn + tail)[..|sn|];
      Decimal.NatToStringInjective(m, n);
    }
  }

  /** The issues of one severity, in report order. */
  function OfSeverity(issues: seq<DiagnosticIssue>, severity: Severity): seq<DiagnosticIssue> {
    Seqs.Filter(issues, (issue: DiagnosticIssue) => issue.severity == severity)
  }

  lemma OfSeverityAppend(a: seq<DiagnosticIssue>, b: seq<DiagnosticIssue>, severity: Severity)
    ensures OfSeverity(a + b, severity) == OfSeverity(a, severity) + OfSeverity(b, severity)
  {
    Seqs.FilterAppend(a, b, (issue: DiagnosticIssue) => issue.severity == severity);
  }

  /** Every issue of `issues` has the given severity. */
  predicate AllOfSeverity(issues: seq<DiagnosticIssue>, severity: Severity) {
    forall i :: 0 <= i < |issues| ==> issues[i].severity == severity
  }

  lemma AllOfSeverityAppend(a: seq<DiagnosticIssue>, b: seq<DiagnosticIssue>, severity: Severity)
    requires AllOfSeverity(a, severity) && AllOfSeverity(b, severity)
    ensures AllOfSeverity(a + b, severity)
  {
    forall i | 0 <= i < |a + b| ensures (a + b)[i].severity == severity {
      if i >= |a| {
        assert (a + b)[i] == b[i - |a|];
      }
    }
  }

  /** A list whose issues share one severity is all of that severity and none of any other. */
  lemma {:induction false} OfSeverityUniform(issues: seq<DiagnosticIssue>, shared: Severity, severity: Severity)
    requires AllOfSeverity(issues, shared)
    ensures OfSeverity(issues, severity) == if severity == shared then issues else []
  {
    if issues != [] {
      var init := issues[..|issues| - 1];
      assert AllOfSeverity(init, shared) by {
        forall i | 0 <= i < |init| ensures init[i].severity == shared {
          assert init[i] == issues[i];
        }
      }
      OfSeverityUniform(init, shared, severity);
      assert issues[|issues| - 1].severity == shared;
      assert init + [issues[|issues| - 1]] == issues;
    }
  }

  lemma OfSeveritySingleton(issue: DiagnosticIssue, severity: Severity)
    ensures OfSeverity([issue], severity) == if issue.severity == severity then [issue] else []
  {
    Seqs.FilterSingleton(issue, (i: DiagnosticIssue) => i.severity == severity);
  }
}
