/**
 * The services check: walks the namespace's Endpoints objects in list order and
 * reports every one that has no subsets, or an empty list of them, as an Info
 * issue carrying its name. Such an object without a name aborts the check.
 */
module ServicesDiagnostic {
  import opened Wrappers
  import opened Kube
  import opened Report
  import opened Seqs

  /**
   * `EndpointSubset`: the check only asks whether an object has any, so its
   * addresses and ports are not modelled.
   */
  datatype EndpointSubset = EndpointSubset

  datatype Endpoints = Endpoints(metadata: ObjectMeta, subsets: Option<seq<EndpointSubset>>)

  /** A service with no endpoints: subsets absent, or present and empty. */
  predicate Unserved(endpoints: Endpoints) {
    endpoints.subsets.None? || endpoints.subsets.value == []
  }

  /** Every unserved endpoints object has a name, so the `unwrap` in the loop never fails. */
  predicate AllUnservedNamed(items: seq<Endpoints>) {
    forall i :: 0 <= i < |items| && Unserved(items[i]) ==> items[i].metadata.name.Some?
  }

  /** The issue about an unserved endpoints object: resource "Endpoint", message its name. */
  function UnservedIssue(endpoints: Endpoints): DiagnosticIssue
    requires endpoints.metadata.name.Some?
  {
    NewIssue("Endpoint", endpoints.metadata.name.value, Info)
  }

  /** The issues of a list of endpoints objects, in list order. */
  function ServicesIssues(items: seq<Endpoints>): seq<DiagnosticIssue>
    requires AllUnservedNamed(items)
  {
    if items == [] then
      []
    else
      var init, last := items[..|items| - 1], items[|items| - 1];
      assert AllUnservedNamed(init) by {
        forall i | 0 <= i < |init| && Unserved(init[i]) ensures init[i].metadata.name.Some? {
          assert init[i] == items[i];
        }
      }
      ServicesIssues(init) + (if Unserved(last) then [UnservedIssue(last)] else [])
  }

  // ---------------------------------------------------------------------------
  // The check

  /**
   * `ServicesDiagnostic::run`, given what the list call returned. An unserved
   * endpoints object without a name panics at the `unwrap`, which ends the run
   * with no report.
   */
  method Run(listed: Listing<Endpoints>) returns (r: Outcome)
    ensures listed.Failure? ==> r == Failure(ListFailed(listed.error))
    ensures listed.Success? && !AllUnservedNamed(listed.value) ==> r == Failure(Panicked(UnwrapOnNone))
    ensures listed.Success? && AllUnservedNamed(listed.value) ==>
      r == Success(DiagnosticReport(Summary(|listed.value|, "services"), ServicesIssues(listed.value)))
  {
    if listed.Failure? {
      return Failure(ListFailed(listed.error));
    }
    var items := listed.value;
    var count := |items|;
    var issues: seq<DiagnosticIssue> := [];

    for i := 0 to |items|
      invariant AllUnservedNamed(items[..i])
      invariant issues == ServicesIssues(items[..i])
    {
      var endpoint := items[i];
      assert items[..i + 1][..i] == items[..i];
      if endpoint.subsets.None? || endpoint.subsets.value == [] {
        if endpoint.metadata.name.None? {
          assert !AllUnservedNamed(items) by {
            assert Unserved(items[i]);
          }
          return Failure(Panicked(UnwrapOnNone));
        }
        issues := issues + [NewIssue("Endpoint", endpoint.metadata.name.value, Info)];
      }
      assert AllUnservedNamed(items[..i + 1]) by {
        var prefix := items[..i + 1];
        forall k | 0 <= k < |prefix| && Unserved(prefix[k]) ensures prefix[k].metadata.name.Some? {
          if k < i {
            assert prefix[k] == items[..i][k];
          }
        }
      }
    }

    assert items[..|items|] == items;
    return Success(DiagnosticReport(Summary(count, "services"), issues));
  }

  // ---------------------------------------------------------------------------
  // Properties

  lemma {:induction false} FilterUnservedMember(items: seq<Endpoints>, k: nat)
    requires k < |Filter(items, Unserved)|
    ensures Filter(items, Unserved)[k] in items
    ensures Unserved(Filter(items, Unserved)[k])
  {
    var init, last := items[..|items| - 1], items[|items| - 1];
    if k < |Filter(init, Unserved)| {
      FilterUnservedMember(init, k);
      assert Filter(init, Unserved)[k] in items by {
        var x := Filter(init, Unserved)[k];
        var j :| 0 <= j < |init| && init[j] == x;
        assert items[j] == x;
      }
    }
  }

  /**
   * One issue per unserved endpoints object, in list order: issue k carries the
   * name of the k-th unserved one. There are never more issues than objects.
   */
  lemma {:induction false} ServicesIssuesAt(items: seq<Endpoints>)
    requires AllUnservedNamed(items)
    ensures |ServicesIssues(items)| == |Filter(items, Unserved)| <= |items|
    ensures forall k :: 0 <= k < |ServicesIssues(items)| ==>
      Filter(items, Unserved)[k].metadata.name.Some? &&
      ServicesIssues(items)[k] == NewIssue("Endpoint", Filter(items, Unserved)[k].metadata.name.value, Info)
  {
    if items != [] {
      var init, last := items[..|items| - 1], items[|items| - 1];
      assert AllUnservedNamed(init) by {
        forall i | 0 <= i < |init| && Unserved(init[i]) ensures init[i].metadata.name.Some? {
          assert init[i] == items[i];
        }
      }
      ServicesIssuesAt(init);
      forall k | 0 <= k < |Filter(items, Unserved)|
        ensures Filter(items, Unserved)[k].metadata.name.Some?
      {
        FilterUnservedMember(items, k);
      }
    }
  }

  /** The issues of two lists, one after the other, are those of the joined list. */
  lemma {:induction false} ServicesIssuesAppend(a: seq<Endpoints>, b: seq<Endpoints>)
    requires AllUnservedNamed(a) && AllUnservedNamed(b)
    ensures AllUnservedNamed(a + b)
    ensures ServicesIssues(a + b) == ServicesIssues(a) + ServicesIssues(b)
  {
    assert AllUnservedNamed(a + b) by {
      forall i | 0 <= i < |a + b| && Unserved((a + b)[i]) ensures (a + b)[i].metadata.name.Some? {
        if i < |a| {
          assert (a + b)[i] == a[i];
        } else {
          assert (a + b)[i] == b[i - |a|];
        }
      }
    }
    if b == [] {
      assert a + b == a;
    } else {
      var b', last := b[..|b| - 1], b[|b| - 1];
      assert (a + b)[..|a + b| - 1] == a + b';
      assert AllUnservedNamed(b') by {
        forall i | 0 <= i < |b'| && Unserved(b'[i]) ensures b'[i].metadata.name.Some? {
          assert b'[i] == b[i];
        }
      }
      ServicesIssuesAppend(a, b');
      AppendAssoc(ServicesIssues(a), ServicesIssues(b'), if Unserved(last) then [UnservedIssue(last)] else []);
    }
  }

  /** Every services issue is informational, with resource "Endpoint". */
  lemma {:induction false} ServicesIssuesAreInfo(items: seq<Endpoints>)
    requires AllUnservedNamed(items)
    ensures AllOfSeverity(ServicesIssues(items), Info)
    ensures forall k :: 0 <= k < |ServicesIssues(items)| ==> ServicesIssues(items)[k].resource == "Endpoint"
  {
    ServicesIssuesAt(items);
  }

  /** A list in which every endpoints object has at least one subset gives no issue. */
  lemma {:induction false} AllServedQuiet(items: seq<Endpoints>)
    requires forall e :: e in items ==> !Unserved(e)
    ensures AllUnservedNamed(items)
    ensures ServicesIssues(items) == []
  {
    FilterNone(items, Unserved);
    ServicesIssuesAt(items);
  }
}
