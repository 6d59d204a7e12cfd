/**
 * The events check: one Warning issue per listed event, newest-listed first,
 * whose message shows the reason, the time, the text and the reporting component,
 * each with a placeholder when the event does not carry it.
 */
module EventsDiagnostic {
  import opened Wrappers
  import opened Kube
  import opened Report

  /** `ObjectReference`, reduced to the name of the object the event is about. */
  datatype ObjectReference = ObjectReference(name: Option<string>)

  datatype EventSource = EventSource(component: Option<string>)

  datatype Event = Event(
    involvedObject: ObjectReference,
    message: Option<string>,
    reason: Option<string>,
    eventTime: Option<MicroTime>,
    lastTimestamp: Option<Time>,
    source: Option<EventSource>)

  /**
   * The foreign renderings the message uses: chrono's `to_rfc3339` and the
   * terminal styles `bright_yellow` and `dimmed` of the colored crate.
   */
  datatype Rendering = Rendering(
    rfc3339: DateTime -> string,
    brightYellow: string -> string,
    dimmed: string -> string)

  /** The time an event is shown with: its event time if any, else its last timestamp. */
  function ExtractTimestamp(e: Event): (t: Option<DateTime>)
    ensures t.None? <==> e.eventTime.None? && e.lastTimestamp.None?
    ensures e.eventTime.Some? ==> t == Some(e.eventTime.value.instant)
    ensures e.eventTime.None? && e.lastTimestamp.Some? ==> t == Some(e.lastTimestamp.value.instant)
  {
    if e.eventTime.Some? then
      Some(e.eventTime.value.instant)
    else if e.lastTimestamp.Some? then
      Some(e.lastTimestamp.value.instant)
    else
      None
  }

  function InvolvedName(e: Event): string {
    e.involvedObject.name.GetOr("<unknown>")
  }

  function MessageText(e: Event): string {
    e.message.GetOr("<no message>")
  }

  function ReasonText(e: Event): string {
    e.reason.GetOr("<no reason>")
  }

  function TimeText(e: Event, rendering: Rendering): string {
    match ExtractTimestamp(e)
    case Some(instant) => rendering.rfc3339(instant)
    case None => "<no time>"
  }

  function SourceText(e: Event): string {
    match e.source
    case Some(source) => source.component.GetOr("<unknown>")
    case None => "<unknown>"
  }

  /**
   * `format!("({}) {} {} {}", reason.bright_yellow(), ts_str.dimmed(), msg, source.dimmed())`:
   * each of the four parts can be read back from its place between the fixed
   * separators "(", ") ", " " and " ".
   */
  function EventMessage(e: Event, rendering: Rendering): (m: string)
    ensures var reason, time := rendering.brightYellow(ReasonText(e)), rendering.dimmed(TimeText(e, rendering));
      var text, source := MessageText(e), rendering.dimmed(SourceText(e));
      var timeAt := |reason| + 3;
      var textAt := timeAt + |time| + 1;
      var sourceAt := textAt + |text| + 1;
      |m| == sourceAt + |source| &&
      m[..1] == "(" && m[1..|reason| + 1] == reason && m[|reason| + 1..timeAt] == ") " &&
      m[timeAt..timeAt + |time|] == time && m[timeAt + |time|] == ' ' &&
      m[textAt..textAt + |text|] == text && m[textAt + |text|] == ' ' &&
      m[sourceAt..] == source
  {
    "(" + rendering.brightYellow(ReasonText(e)) + ") " + rendering.dimmed(TimeText(e, rendering))
    + " " + MessageText(e) + " " + rendering.dimmed(SourceText(e))
  }

  function EventIssue(e: Event, rendering: Rendering): DiagnosticIssue {
    NewIssue(InvolvedName(e), EventMessage(e, rendering), Warning)
  }

  /**
   * The issues of an event list, as the walk from the last item to the first
   * pushes them: those of the later events, then the first event's.
   */
  function EventsIssues(events: seq<Event>, rendering: Rendering): seq<DiagnosticIssue> {
    if events == [] then [] else EventsIssues(events[1..], rendering) + [EventIssue(events[0], rendering)]
  }

  // ---------------------------------------------------------------------------
  // The check

  /** `EventsDiagnostic::run`, given what the list call returned. */
  method Run(listed: Listing<Event>, rendering: Rendering) returns (r: Outcome)
    ensures listed.Failure? ==> r == Failure(ListFailed(listed.error))
    ensures listed.Success? ==>
      r == Success(DiagnosticReport(Summary(|listed.value|, "events"), EventsIssues(listed.value, rendering)))
  {
    if listed.Failure? {
      return Failure(ListFailed(listed.error));
    }
    var items := listed.value;
    var count := |items|;
    var issues: seq<DiagnosticIssue> := [];

    var i := |items|;
    while i > 0
      invariant 0 <= i <= |items|
      invariant issues == EventsIssues(items[i..], rendering)
    {
      i := i - 1;
      var e := items[i];
      var involved := e.involvedObject.name.GetOr("<unknown>");
      var msg := e.message.GetOr("<no message>");
      var reason := e.reason.GetOr("<no reason>");
      var tsStr := match ExtractTimestamp(e) case Some(dt) => rendering.rfc3339(dt) case None => "<no time>";
      var source := if e.source.Some? then e.source.value.component.GetOr("<unknown>") else "<unknown>";
      issues := issues + [NewIssue(
        involved,
        "(" + rendering.brightYellow(reason) + ") " + rendering.dimmed(tsStr) + " " + msg + " " + rendering.dimmed(source),
        Warning)];
      assert items[i..][1..] == items[i + 1..];
    }

    assert items[0..] == items;
    return Success(DiagnosticReport(Summary(count, "events"), issues));
  }

  // ---------------------------------------------------------------------------
  // Properties

  /** One issue per event, in reverse list order: issue k is about event |events| - 1 - k. */
  lemma {:induction false} EventsIssuesAt(events: seq<Event>, rendering: Rendering)
    ensures |EventsIssues(events, rendering)| == |events|
    ensures forall k :: 0 <= k < |events| ==>
      EventsIssues(events, rendering)[k] == EventIssue(events[|events| - 1 - k], rendering)
  {
    if events != [] {
      var rest := events[1..];
      EventsIssuesAt(rest, rendering);
      assert EventsIssues(events, rendering) == EventsIssues(rest, rendering) + [EventIssue(events[0], rendering)];
      forall k | 0 <= k < |rest|
        ensures EventsIssues(events, rendering)[k] == EventIssue(events[|events| - 1 - k], rendering)
      {
        assert events[|events| - 1 - k] == rest[|rest| - 1 - k];
      }
    }
  }

  /** Events listed later are reported first. */
  lemma {:induction false} EventsIssuesAppend(a: seq<Event>, b: seq<Event>, rendering: Rendering)
    ensures EventsIssues(a + b, rendering) == EventsIssues(b, rendering) + EventsIssues(a, rendering)
  {
    if a == [] {
      assert a + b == b;
    } else {
      assert (a + b)[1..] == a[1..] + b;
      EventsIssuesAppend(a[1..], b, rendering);
    }
  }

  /** Every event issue is a Warning, so there are no Info or Error issues. */
  lemma {:induction false} EventsIssuesAreWarnings(events: seq<Event>, rendering: Rendering, severity: Severity)
    ensures OfSeverity(EventsIssues(events, rendering), severity) ==
      if severity == Warning then EventsIssues(events, rendering) else []
  {
    EventsIssuesAt(events, rendering);
    OfSeverityUniform(EventsIssues(events, rendering), Warning, severity);
  }

  /** The summary counts the events, and so does the issue list: the two numbers agree. */
  lemma EventsReportCounts(events: seq<Event>, rendering: Rendering)
    ensures Summary(|EventsIssues(events, rendering)|, "events") == Summary(|events|, "events")
  {
    EventsIssuesAt(events, rendering);
  }

  /**
   * The issue about an event names its involved object, or "<unknown>", and its
   * message fills each missing part with its placeholder.
   */
  lemma EventIssueFields(e: Event, rendering: Rendering)
    ensures EventIssue(e, rendering).resource == if e.involvedObject.name.Some? then e.involvedObject.name.value else "<unknown>"
    ensures e.reason.None? ==> "(" + rendering.brightYellow("<no reason>") + ") " <= EventIssue(e, rendering).message
    ensures e.eventTime.None? && e.lastTimestamp.None? ==> TimeText(e, rendering) == "<no time>"
    ensures e.message.None? ==> MessageText(e) == "<no message>"
    ensures e.source.None? || e.source.value.component.None? ==> SourceText(e) == "<unknown>"
  {
  }
}
