# kubectl-diagnostics, modelled in Dafny

kubectl-diagnostics runs four checks against a Kubernetes cluster: pods, events,
nodes and services. Each check lists one kind of object, walks the list, and
returns a `DiagnosticReport`. A report holds a summary (`"<N> <kind> analyzed"`,
where N is the number of listed objects) and an ordered list of
`DiagnosticIssue`s, each with a resource, a message and a severity
(Info, Warning or Error).

This project models the per-object rules of the four checks and the shared
report model. Every check is a `method` whose loop builds the issue list the way
the Rust `issues.push` loops do. Each method is proved equal to a pure
specification function, and lemmas prove what the checks promise about those
functions.

Modules, one per file:

- `Wrappers`: `Option` and `Result`.
- `Kube`: the pieces of the Kubernetes client types that all checks share. These are the object name, the time types, and the list call's outcome (`Listing<T>`: the items, or the error that `?` propagates).
- `Decimal`: `i32` and the decimal rendering `format!("{}", ..)` gives integers, with a parser that reads it back.
- `Seqs`: `ConcatMap` (the concatenation a loop of pushes builds) and `Filter` (a reference definition for counts and order), with their lemmas.
- `Report`: `Severity`, `DiagnosticIssue`, `DiagnosticIssue::new`, `DiagnosticReport`, the summary line, and the issues of one severity.
- `PodsDiagnostic`, `EventsDiagnostic`, `NodesDiagnostic`, `ServicesDiagnostic`: the four checks.

How a run ends:

- When the list call fails, the method returns `Failure(ListFailed(e))`.
- When an `unwrap()` would panic, the method returns `Failure(Panicked(..))`. This happens for a node without a status, and for an Endpoints object without a name whose subsets are absent or empty.
- Otherwise the method returns `Success(report)`.

The two services files, `src/services_diagnostics.rs` and `src/diagnostics/services_diagnostics.rs`, differ only in their `use` lines. One model covers both, and the table below cites each of them.

Behaviour modelled as written:

- The pods check's host issue reads `"Terminated: <host ip>"`, with `"<no node>"` when the host IP is missing (src/pods_diagnostics.rs:83). It is an Info issue.
- The host issue and the start-time issue are only emitted when the pod's container statuses are present. This includes a present but empty list (src/pods_diagnostics.rs:48-97).
- As a result, three pods where one is Pending, one has a container that restarted twice and one is Running without container statuses give three issues: the restarted pod also gets the host issue. `PodsDiagnostic.ThreePodsScenario` shows this.
- The nodes check reports every Ready/False condition of every node (src/nodes_diagnostic.rs:24-34).
- A node without a status aborts the whole check (src/nodes_diagnostic.rs:23). Likewise, an unserved Endpoints object without a name aborts the services check (src/services_diagnostics.rs:33).
- Events and nodes are walked from the last listed item to the first, so later items are reported first.

## Model

| member | source | states |
|---|---|---|
| `Report.NewIssue` | src/diagnostics/diagnostic_report.rs:21-30 | The new issue keeps the given resource, message and severity unchanged, and has no namespace, reason or timestamp. |
| `Report.Summary` | src/pods_diagnostics.rs:101 | The summary is the count's decimal digits followed by `" <kind> analyzed"`. Those digits read back as the count, and they start with `0` only in `"0 <kind> analyzed"`. The same format is at src/events_diagnostic.rs:42, src/nodes_diagnostic.rs:38 and src/services_diagnostics.rs:40. |
| `Report.SummaryOfThreePods` | src/pods_diagnostics.rs:101 | Three listed pods give the summary `"3 pods analyzed"`. |
| `Report.SummaryDeterminesCount` | src/pods_diagnostics.rs:100-101 | Two summaries of the same kind are equal only when their counts are equal, so the summary determines the number of listed objects. |
| `Decimal.NatToString` | src/pods_diagnostics.rs:101 | The text of a count (`usize` `Display`) is one or more decimal digits. It starts with `0` only when it is exactly `"0"`, and the count 0 is written `"0"`. |
| `Decimal.NatToStringRoundTrip` | src/pods_diagnostics.rs:101 | The decimal text of a count reads back as that count. |
| `Decimal.IntToString` | src/pods_diagnostics.rs:53 | The text of an `i32` (`Display`, also used for the exit code at line 72) starts with `-` exactly when the number is negative, and the rest is one or more decimal digits. Those digits start with `0` only when the whole text is `"0"`. |
| `Decimal.IntToStringRoundTrip` | src/pods_diagnostics.rs:53 | The decimal text of an `i32` (restart count, exit code) reads back as the same number, sign included. |
| `PodsDiagnostic.Run` | src/pods_diagnostics.rs:14-104 | A failed list gives `ListFailed` with its error. Otherwise the summary is `"<number of listed pods> pods analyzed"` and the issues are those of each pod in list order, however many issues there are. |
| `PodsDiagnostic.CheckPod` | src/pods_diagnostics.rs:24-98 | The body of the loop over pods appends exactly that pod's issues: phase, conditions, containers, host, start. A pod without a status appends nothing. |
| `PodsDiagnostic.CheckConditions` | src/pods_diagnostics.rs:36-46 | The loop over conditions appends the issues of the conditions in condition order. |
| `PodsDiagnostic.CheckContainers` | src/pods_diagnostics.rs:48-77 | The loop over container statuses appends each container's issues in list order. |
| `PodsDiagnostic.CheckContainer` | src/pods_diagnostics.rs:50-76 | One container status appends its restart issue, then its waiting issue, then its terminated issue, each only when present. |
| `PodsDiagnostic.PodIssuesNamePod` | src/pods_diagnostics.rs:24 | Every issue about a pod has the pod's name as its resource, or `""` when the pod has no name. |
| `PodsDiagnostic.PodsIssuesProvenance` | src/pods_diagnostics.rs:23-99 | Every issue of the check comes from one listed pod and carries that pod's name. |
| `PodsDiagnostic.PodsIssuesAppend` | src/pods_diagnostics.rs:23 | Issues are grouped by pod in list order. The issues of a joined list are the first part's issues followed by the second part's. |
| `PodsDiagnostic.PodWarnings` | src/pods_diagnostics.rs:26-33 | A pod's warnings are exactly one `"Phase: <phase>"` issue when the phase is present and not `"Running"`, and none otherwise. A pod without a status has none. |
| `PodsDiagnostic.PodErrors` | src/pods_diagnostics.rs:36-77 | A pod's errors are its condition issues followed by its container issues. A pod without a status has none. |
| `PodsDiagnostic.PodInfos` | src/pods_diagnostics.rs:79-97 | A pod's Info issues are `"Terminated: <host ip or <no node>>"`, then `"Started at: <RFC 3339 start>"` when there is a start time. Both appear only when container statuses are present, including an empty list. |
| `PodsDiagnostic.StatusWarnings` | src/pods_diagnostics.rs:26-33 | Of all the issues about a pod's status, the Warnings are exactly the phase issues. |
| `PodsDiagnostic.StatusErrors` | src/pods_diagnostics.rs:36-77 | Of all the issues about a pod's status, the Errors are exactly the condition issues and then the container issues. |
| `PodsDiagnostic.StatusInfos` | src/pods_diagnostics.rs:79-97 | Of all the issues about a pod's status, the Info issues are exactly the host and start-time issues. |
| `PodsDiagnostic.StatusIssuesSplit` | src/pods_diagnostics.rs:25-98 | The issues of one severity about a pod are those of the phase, condition, container and placement rules, in that order. |
| `PodsDiagnostic.PhaseIssuesOfSeverity` | src/pods_diagnostics.rs:31 | The phase issue is a Warning. |
| `PodsDiagnostic.ConditionsIssuesOfSeverity` | src/pods_diagnostics.rs:42 | Condition issues are Errors. |
| `PodsDiagnostic.ContainersIssuesOfSeverity` | src/pods_diagnostics.rs:54-73 | Container issues are Errors. |
| `PodsDiagnostic.ContainerIssuesOfSeverity` | src/pods_diagnostics.rs:50-75 | The restart, waiting and terminated issues of one container are Errors. |
| `PodsDiagnostic.ContainerPartIssuesOfSeverity` | src/pods_diagnostics.rs:48-77 | The container part of a status, present or not, gives only Errors. |
| `PodsDiagnostic.StateIssuesOfSeverity` | src/pods_diagnostics.rs:57-76 | Waiting and terminated issues are Errors. |
| `PodsDiagnostic.PlacementIssuesOfSeverity` | src/pods_diagnostics.rs:85-94 | The host and start-time issues are Info. |
| `PodsDiagnostic.ConditionsIssuesInOrder` | src/pods_diagnostics.rs:36-45 | There is one issue per condition whose status is exactly `"False"`, in condition order. The k-th issue is `"<type>: <message or empty>"` for the k-th such condition. |
| `PodsDiagnostic.ConditionsIssuesAreAbout` | src/pods_diagnostics.rs:40 | Condition issues carry the pod's name. |
| `PodsDiagnostic.ContainersIssuesAreAbout` | src/pods_diagnostics.rs:52-68 | Container issues carry the pod's name. |
| `PodsDiagnostic.RestartIssuesInOrder` | src/pods_diagnostics.rs:49-56 | There is one `"Restart Count: "` issue per container status with a positive restart count, in list order, so never more than there are container statuses. The k-th carries the k-th such container's count. |
| `PodsDiagnostic.WaitingIssuesInOrder` | src/pods_diagnostics.rs:57-66 | There is one `"Waiting: "` issue per container whose state has a waiting part, in list order. The k-th is made from the k-th such container's waiting reason and message. |
| `PodsDiagnostic.TerminatedIssuesInOrder` | src/pods_diagnostics.rs:57-75 | There is one container `"Terminated: "` issue per container whose state has a terminated part, in list order. The k-th is made from the k-th such container's terminated reason and exit code. |
| `PodsDiagnostic.ContainerRestartIssues` | src/pods_diagnostics.rs:50-55 | Of one container's issues, the restart issues are exactly `"Restart Count: <count>"` if its restart count is positive, and none otherwise. |
| `PodsDiagnostic.ContainerWaitingIssues` | src/pods_diagnostics.rs:57-66 | Of one container's issues, the waiting issues are exactly the one made from its waiting part if its state has one, and none otherwise. A missing state gives none. |
| `PodsDiagnostic.ContainerTerminatedIssues` | src/pods_diagnostics.rs:57-75 | Of one container's issues, the terminated issues are exactly the one made from its terminated part if its state has one, and none otherwise. A missing state gives none. |
| `PodsDiagnostic.RestartIssuesKinds` | src/pods_diagnostics.rs:53 | The restart issue's message starts with `"Restart Count: "`, and never with `"Waiting: "` or `"Terminated: "`. |
| `PodsDiagnostic.WaitingIssuesKinds` | src/pods_diagnostics.rs:61-63 | The waiting issue's message starts with `"Waiting: "`, and with neither of the other two prefixes. |
| `PodsDiagnostic.TerminatedIssuesKinds` | src/pods_diagnostics.rs:70-72 | The terminated issue's message starts with `"Terminated: "`, and with neither of the other two prefixes. |
| `PodsDiagnostic.TerminatedMessageStart` | src/pods_diagnostics.rs:70 | The terminated message begins with `"Terminated: "`. |
| `PodsDiagnostic.RestartMessageReadsBack` | src/pods_diagnostics.rs:53 | The number after `"Restart Count: "` reads back as the container's restart count. |
| `PodsDiagnostic.WaitingMessageReadsBack` | src/pods_diagnostics.rs:61-63 | After `"Waiting: "` comes the waiting reason (or `"<no reason>"`), one space, and then the waiting message (or `"<no message>"`) to the end. |
| `PodsDiagnostic.TerminatedMessageReadsBack` | src/pods_diagnostics.rs:70-72 | After `"Terminated: "` comes the terminated reason (or `"<no reason>"`). The number between `" (exit "` and the closing `)` reads back as the exit code. |
| `PodsDiagnostic.ThreePodsScenario` | src/pods_diagnostics.rs:48-86 | A Pending pod, a Running pod whose one container restarted twice, and a Running pod without container statuses give three issues: `Phase: Pending`, `Restart Count: 2`, and `Terminated: <no node>`. |
| `PodsDiagnostic.PendingPodIssues` | src/pods_diagnostics.rs:26-33 | A Pending pod with nothing else in its status gives only its phase warning. |
| `PodsDiagnostic.RestartedPodIssues` | src/pods_diagnostics.rs:49-86 | Example: a Running pod with no conditions, no host IP and no start time, whose one container status has restart count 2 and no state, gives exactly `"Restart Count: 2"` (Error) and then `"Terminated: <no node>"` (Info). |
| `PodsDiagnostic.QuietRunningPodIssues` | src/pods_diagnostics.rs:27 | A Running pod without conditions or container statuses gives no issue. |
| `EventsDiagnostic.Run` | src/events_diagnostic.rs:16-45 | A failed list gives `ListFailed`. Otherwise the summary is `"<number of listed events> events analyzed"` and the issues are the events' issues, walked from the last event to the first. |
| `EventsDiagnostic.ExtractTimestamp` | src/events_diagnostic.rs:49-57 | The event time is used when present, otherwise the last timestamp. There is no time exactly when both are absent. |
| `EventsDiagnostic.EventMessage` | src/events_diagnostic.rs:36 | The message is `(`, the styled reason, `) `, the styled time, a space, the event's text, a space and the styled source. Each part can be read back from its place, and the length is the parts' lengths plus 5. |
| `EventsDiagnostic.EventsIssuesAt` | src/events_diagnostic.rs:25 | There is exactly one issue per event, in reverse list order. Issue k is about event `count - 1 - k`. |
| `EventsDiagnostic.EventsIssuesAppend` | src/events_diagnostic.rs:25 | Events listed later are reported first. The issues of a joined list are the second part's issues followed by the first part's. |
| `EventsDiagnostic.EventsIssuesAreWarnings` | src/events_diagnostic.rs:37 | Every event issue is a Warning. There are no Info or Error issues. |
| `EventsDiagnostic.EventsReportCounts` | src/events_diagnostic.rs:23-42 | The number in the summary equals the number of issues. |
| `EventsDiagnostic.EventIssueFields` | src/events_diagnostic.rs:26-36 | The resource is the involved object's name, or `"<unknown>"` without one. Missing reason, time, message and source become `"<no reason>"`, `"<no time>"`, `"<no message>"` and `"<unknown>"`. |
| `NodesDiagnostic.Run` | src/nodes_diagnostic.rs:14-41 | A failed list gives `ListFailed`. A node without a status gives the `unwrap` panic. Otherwise the summary is `"<number of listed nodes> nodes analyzed"` and the issues are those of the nodes, walked from the last node to the first. |
| `NodesDiagnostic.CheckConditions` | src/nodes_diagnostic.rs:24-34 | The loops over a node's conditions, if any, append their issues in condition order. |
| `NodesDiagnostic.StatusIssuesAt` | src/nodes_diagnostic.rs:26-31 | A node gives one issue per condition with type `"Ready"` and status `"False"`, in condition order. Each has resource `"Node"`, severity Info, and the condition's reason (or `""`) as its message. |
| `NodesDiagnostic.QuietStatus` | src/nodes_diagnostic.rs:24-26 | A node whose conditions are absent, empty, or all other than Ready/False gives no issue. |
| `NodesDiagnostic.NodesIssuesAppend` | src/nodes_diagnostic.rs:22 | Nodes listed later are reported first. |
| `NodesDiagnostic.NodesIssuesAreInfo` | src/nodes_diagnostic.rs:30 | Every node issue is Info. |
| `ServicesDiagnostic.Run` | src/diagnostics/services_diagnostics.rs:15-43 | A failed list gives `ListFailed`. An unserved Endpoints object without a name gives the `unwrap` panic. Otherwise the summary is `"<number of listed endpoints> services analyzed"` and the issues are those of the unserved objects, in list order. |
| `ServicesDiagnostic.ServicesIssuesAt` | src/services_diagnostics.rs:29-37 | There is one issue per Endpoints object whose subsets are absent or empty, in list order. The k-th issue is `("Endpoint", name of the k-th such object, Info)`. There are never more issues than objects. |
| `ServicesDiagnostic.ServicesIssuesAppend` | src/diagnostics/services_diagnostics.rs:29 | Issues follow list order. |
| `ServicesDiagnostic.ServicesIssuesAreInfo` | src/diagnostics/services_diagnostics.rs:32-34 | Every services issue is Info, with resource `"Endpoint"`. |
| `ServicesDiagnostic.AllServedQuiet` | src/services_diagnostics.rs:30 | A list in which every object has at least one subset gives no issue. |
| `ServicesDiagnostic.FilterUnservedMember` | src/services_diagnostics.rs:30 | Each selected object is a listed object whose subsets are absent or empty. |

## Left out

- The list calls and the client. `Api::list`, `Api::namespaced`/`Api::all` and the `Client` are network I/O. Each check takes what the list call returned as its input, a list of items or an error. The namespace argument only chooses what is listed, so it is not a parameter. The `limit(100)` on the pods and events lists is enforced by the server, so the model puts no bound on the input length.
- RFC 3339 rendering (chrono's `to_rfc3339`) and terminal styling (the colored crate's `bright_yellow` and `dimmed`) are foreign code. They are function-valued parameters, so every property holds for any rendering.
- `src/main.rs` (the tokio entry point and console printing), `src/args.rs` (argument parsing), `src/diagnostics/mod.rs` (re-exports), the `Diagnostic` traits in `src/diagnostic.rs` and `src/diagnostics/diagnostic.rs`, `OutputMode`, and the serde derives. They print or declare, and hold no rules. Each check is a plain method instead of a trait implementation.
- Panics are modelled only as the outcome `Panicked`. The model does not capture the process or task that a panic takes down.
- The Kubernetes objects are reduced to the fields the checks read. For example, `ContainerState.running` is not modelled.
- Idempotence of a check on an unchanged snapshot holds because every method is proved equal to a function of its input. There is no separate lemma for it.
- `EventsDiagnostic.EventIssueFields`: states the placeholders and the resource, not the layout of the event message. `EventsDiagnostic.EventMessage` states the layout.
