/**
 * The nodes check: walks the cluster's nodes from the last listed to the first
 * and reports every "Ready" condition whose status is "False" as an Info issue
 * carrying the condition's reason. A node without a status aborts the check.
 */
module NodesDiagnostic {
  import opened Wrappers
  import opened Kube
  import opened Report
  import opened Seqs

  datatype NodeCondition = NodeCondition(conditionType: string, status: string, reason: Option<string>)

  datatype NodeStatus = NodeStatus(conditions: Option<seq<NodeCondition>>)

  datatype Node = Node(metadata: ObjectMeta, status: Option<NodeStatus>)

  /** The one condition the check looks for: type "Ready" with status "False". */
  predicate IsNotReady(condition: NodeCondition) {
    condition.conditionType == "Ready" && condition.status == "False"
  }

  /** The issue about a not-ready condition: resource "Node", message its reason or "". */
  function NotReadyIssue(condition: NodeCondition): DiagnosticIssue {
    NewIssue("Node", condition.reason.GetOr(""), Info)
  }

  function ConditionIssues(condition: NodeCondition): seq<DiagnosticIssue> {
    if IsNotReady(condition) then [NotReadyIssue(condition)] else []
  }

  /** The issues of one node's status: its conditions' issues in condition order. */
  function StatusIssues(status: NodeStatus): seq<DiagnosticIssue> {
    ConcatMap(status.conditions.GetOr([]), ConditionIssues)
  }

  /** Every listed node has a status, so the `unwrap` in the walk never fails. */
  predicate AllHaveStatus(nodes: seq<Node>) {
    forall i :: 0 <= i < |nodes| ==> nodes[i].status.Some?
  }

  /**
   * The issues of a node list, as the walk from the last item to the first
   * pushes them: those of the later nodes, then the first node's.
   */
  function NodesIssues(nodes: seq<Node>): seq<DiagnosticIssue>
    requires AllHaveStatus(nodes)
  {
    if nodes == [] then
      []
    else
      assert AllHaveStatus(nodes[1..]) by {
        forall i | 0 <= i < |nodes[1..]| ensures nodes[1..][i].status.Some? {
          assert nodes[1..][i] == nodes[i + 1];
        }
      }
      NodesIssues(nodes[1..]) + StatusIssues(nodes[0].status.value)
  }

  // ---------------------------------------------------------------------------
  // The check

  /**
   * `NodesDiagnostic::run`, given what the list call returned. A node without a
   * status panics at the `unwrap`, which ends the run with no report.
   */
  method Run(listed: Listing<Node>) returns (r: Outcome)
    ensures listed.Failure? ==> r == Failure(ListFailed(listed.error))
    ensures listed.Success? && !AllHaveStatus(listed.value) ==> r == Failure(Panicked(UnwrapOnNone))
    ensures listed.Success? && AllHaveStatus(listed.value) ==>
      r == Success(DiagnosticReport(Summary(|listed.value|, "nodes"), NodesIssues(listed.value)))
  {
    if listed.Failure? {
      return Failure(ListFailed(listed.error));
    }
    var items := listed.value;
    var count := |items|;
    var issues: seq<DiagnosticIssue> := [];

    var i := |items|;
    while i > 0
      invariant 0 <= i <= |items|
      invariant AllHaveStatus(items[i..])
      invariant issues == NodesIssues(items[i..])
    {
      i := i - 1;
      var node := items[i];
      if node.status.None? {
        assert !AllHaveStatus(items) by {
          assert items[i].status.None?;
        }
        return Failure(Panicked(UnwrapOnNone));
      }
      var n := node.status.value;
      assert items[i..][1..] == items[i + 1..];
      assert AllHaveStatus(items[i..]) by {
        forall k | 0 <= k < |items[i..]| ensures items[i..][k].status.Some? {
          if k > 0 {
            assert items[i..][k] == items[i + 1..][k - 1];
          }
        }
      }
      issues := CheckConditions(issues, n);
    }

    assert items[0..] == items;
    return Success(DiagnosticReport(Summary(count, "nodes"), issues));
  }

  /** The loops over the status's conditions, if any: pushes their issues onto `issues`. */
  method CheckConditions(issues: seq<DiagnosticIssue>, n: NodeStatus) returns (pushed: seq<DiagnosticIssue>)
    ensures pushed == issues + StatusIssues(n)
  {
    pushed := issues;
    var conditions := n.conditions.GetOr([]);
    for j := 0 to |conditions|
      invariant pushed == issues + ConcatMap(conditions[..j], ConditionIssues)
    {
      var condition := conditions[j];
      ghost var before := pushed;
      if condition.conditionType == "Ready" && condition.status == "False" {
        pushed := pushed + [NewIssue("Node", condition.reason.GetOr(""), Info)];
      } else {
        assert before + [] == before;
      }
      assert pushed == before + ConditionIssues(condition);
      assert conditions[..j + 1] == conditions[..j] + [condition];
      ConcatMapSnoc(conditions[..j], condition, ConditionIssues);
      AppendAssoc(issues, ConcatMap(conditions[..j], ConditionIssues), ConditionIssues(condition));
    }
    assert conditions[..|conditions|] == conditions;
  }

  // ---------------------------------------------------------------------------
  // Properties

  /**
   * A node's issues are one per not-ready condition, in condition order, each
   * with resource "Node", severity Info and the condition's reason (or "").
   */
  lemma StatusIssuesAt(status: NodeStatus)
    ensures |StatusIssues(status)| == |Filter(status.conditions.GetOr([]), IsNotReady)|
    ensures forall k :: 0 <= k < |StatusIssues(status)| ==>
      StatusIssues(status)[k] == NewIssue("Node", Filter(status.conditions.GetOr([]), IsNotReady)[k].reason.GetOr(""), Info)
  {
    ConcatMapOfOptional(status.conditions.GetOr([]), ConditionIssues, IsNotReady, NotReadyIssue);
  }

  /** A status without conditions, or whose conditions are all other than Ready/False, gives nothing. */
  lemma QuietStatus(status: NodeStatus)
    requires forall c :: c in status.conditions.GetOr([]) ==> !IsNotReady(c)
    ensures StatusIssues(status) == []
  {
    FilterNone(status.conditions.GetOr([]), IsNotReady);
    StatusIssuesAt(status);
  }

  /** Nodes listed later are reported first. */
  lemma {:induction false} NodesIssuesAppend(a: seq<Node>, b: seq<Node>)
    requires AllHaveStatus(a) && AllHaveStatus(b)
    ensures AllHaveStatus(a + b)
    ensures NodesIssues(a + b) == NodesIssues(b) + NodesIssues(a)
  {
    assert AllHaveStatus(a + b) by {
      forall i | 0 <= i < |a + b| ensures (a + b)[i].status.Some? {
        if i < |a| {
          assert (a + b)[i] == a[i];
        } else {
          assert (a + b)[i] == b[i - |a|];
        }
      }
    }
    if a == [] {
      assert a + b == b;
    } else {
      assert (a + b)[1..] == a[1..] + b;
      assert AllHaveStatus(a[1..]) by {
        forall i | 0 <= i < |a[1..]| ensures a[1..][i].status.Some? {
          assert a[1..][i] == a[i + 1];
        }
      }
      NodesIssuesAppend(a[1..], b);
      AppendAssoc(NodesIssues(b), NodesIssues(a[1..]), StatusIssues(a[0].status.value));
    }
  }

  /** Every node issue is informational. */
  lemma {:induction false} NodesIssuesAreInfo(nodes: seq<Node>)
    requires AllHaveStatus(nodes)
    ensures AllOfSeverity(NodesIssues(nodes), Info)
  {
    if nodes != [] {
      assert nodes[1..][0..] == nodes[1..];
      NodesIssuesAppend([nodes[0]], nodes[1..]);
      assert [nodes[0]] + nodes[1..] == nodes;
      NodesIssuesAreInfo(nodes[1..]);
      var own := StatusIssues(nodes[0].status.value);
      StatusIssuesAt(nodes[0].status.value);
      assert AllOfSeverity(own, Info);
    }
  }
}
