/** The calls page (src/pages/Calls/CallsList.tsx): the client's copy of the status
    enumeration, the status filter and the choice of empty-state message. */
module CallsList {
  import opened Wrappers
  import opened CallModel
  import Sequences
  import Format

  /** The string values of the client's `CallStatus` enumeration, in declaration order. */
  const ClientStatusValues: seq<string> :=
    ["pending", "dialing", "connected", "in_progress"] + ["summarizing", "needs_followup", "completed", "failed"]

  /** The client lists the same eight values as the server, in the same order. */
  lemma ClientStatusesMatchServer()
    ensures |ClientStatusValues| == |AllStatuses|
    ensures forall i :: 0 <= i < |AllStatuses| ==> ClientStatusValues[i] == StatusText(AllStatuses[i])
  {
  }

  /** A call as the list holds it. */
  datatype ListedCall = ListedCall(
    id: string,
    goal: string,
    expertId: string,
    expertName: string,
    status: CallStatus,
    createdAt: string,
    completedAt: Option<string>,
    durationSeconds: Option<int>,
    summary: Option<string>)

  /** The value of the filter that shows every call. */
  const AllFilter: string := "all"

  /** `calls.filter(call => call.status === filter)`. */
  function KeepStatus(calls: seq<ListedCall>, filter: string): (r: seq<ListedCall>)
    ensures |r| <= |calls|
    ensures Sequences.IsSubsequence(r, calls)
    ensures forall c :: c in r <==> c in calls && StatusText(c.status) == filter
  {
    if calls == [] then []
    else
      var rest := KeepStatus(calls[1..], filter);
      if StatusText(calls[0].status) == filter then
        assert ([calls[0]] + rest)[1..] == rest;
        [calls[0]] + rest
      else rest
  }

  /** The list the filter effect computes: every call for "all", otherwise exactly
      the calls with that status, in their original order. */
  function FilterCalls(calls: seq<ListedCall>, filter: string): (r: seq<ListedCall>)
    ensures filter == AllFilter ==> r == calls
    ensures Sequences.IsSubsequence(r, calls)
    ensures forall c :: c in r <==> c in calls && (filter == AllFilter || StatusText(c.status) == filter)
  {
    if filter == AllFilter then
      Sequences.SubsequenceOfSelf(calls);
      calls
    else KeepStatus(calls, filter)
  }

  /** Filtering keeps the order of the calls: the filtered list of two lists put
      together is their filtered lists put together. */
  lemma {:induction false} FilterKeepsOrder(a: seq<ListedCall>, b: seq<ListedCall>, filter: string)
    ensures FilterCalls(a + b, filter) == FilterCalls(a, filter) + FilterCalls(b, filter)
  {
    if filter != AllFilter {
      KeepKeepsOrder(a, b, filter);
    }
  }

  lemma {:induction false} KeepKeepsOrder(a: seq<ListedCall>, b: seq<ListedCall>, filter: string)
    ensures KeepStatus(a + b, filter) == KeepStatus(a, filter) + KeepStatus(b, filter)
  {
    if a == [] {
      assert a + b == b;
    } else {
      assert (a + b)[0] == a[0] && (a + b)[1..] == a[1..] + b;
      KeepKeepsOrder(a[1..], b, filter);
    }
  }

  /** No status is called "all", so a status filter never shows every call by
      accident, and a value that is no status shows nothing. */
  lemma FilterValues(calls: seq<ListedCall>, filter: string)
    ensures forall s :: StatusText(s) != AllFilter
    ensures filter != AllFilter && (forall s :: StatusText(s) != filter) ==> FilterCalls(calls, filter) == []
  {
    if filter != AllFilter && (forall s :: StatusText(s) != filter) {
      KeepNone(calls, filter);
    }
  }

  /** A status no call has keeps none of them. */
  lemma {:induction false} KeepNone(calls: seq<ListedCall>, filter: string)
    requires forall c :: c in calls ==> StatusText(c.status) != filter
    ensures KeepStatus(calls, filter) == []
  {
    if calls != [] {
      assert calls[0] in calls;
      KeepNone(calls[1..], filter);
    }
  }

  /** `formatStatus(status)`. */
  function FormatStatus(status: CallStatus): (r: string)
    ensures |r| == |StatusText(status)|
    ensures forall i :: 0 <= i < |r| ==> r[i] != '_'
  {
    Format.TitleCase(StatusText(status))
  }

  /** The empty-state title, or `None` when the table is shown. */
  function EmptyMessage(calls: seq<ListedCall>, filtered: seq<ListedCall>): (r: Option<string>)
    ensures r == Some("No calls found") <==> calls == []
    ensures r == Some("No calls match the selected filter") <==> calls != [] && filtered == []
    ensures r.None? <==> calls != [] && filtered != []
  {
    if |calls| == 0 then Some("No calls found")
    else if |filtered| == 0 then Some("No calls match the selected filter")
    else None
  }

  /** With the filter on "all" the "no match" message never appears; with a status
      filter it appears exactly when calls exist but none has that status. */
  lemma NoMatchMessage(calls: seq<ListedCall>, filter: string)
    ensures var m := EmptyMessage(calls, FilterCalls(calls, filter));
      m == Some("No calls match the selected filter") <==>
        calls != [] && filter != AllFilter && forall c :: c in calls ==> StatusText(c.status) != filter
  {
    if filter != AllFilter && forall c :: c in calls ==> StatusText(c.status) != filter {
      KeepNone(calls, filter);
    }
  }

  /** The page state. The filter effect runs after every change of `calls` or of
      `statusFilter`; each handler below ends by running it. */
  class CallsListPage {
    var calls: seq<ListedCall>
    var filteredCalls: seq<ListedCall>
    var loading: bool
    var statusFilter: string

    /** The filtered list is the effect's result for the current calls and filter. */
    predicate Valid()
      reads this
    {
      filteredCalls == FilterCalls(calls, statusFilter)
    }

    constructor()
      ensures Valid()
      ensures calls == [] && filteredCalls == [] && loading && statusFilter == AllFilter
    {
      calls := [];
      filteredCalls := [];
      loading := true;
      statusFilter := AllFilter;
    }

    /** The effect on `[statusFilter, calls]`. */
    method ApplyFilter()
      modifies this
      ensures Valid()
      ensures calls == old(calls) && statusFilter == old(statusFilter) && loading == old(loading)
    {
      if statusFilter == AllFilter {
        filteredCalls := calls;
      } else {
        filteredCalls := KeepStatus(calls, statusFilter);
      }
    }

    /** The fetch effect, with `fetched` the list it builds. */
    method Loaded(fetched: seq<ListedCall>)
      modifies this
      ensures Valid()
      ensures calls == fetched && !loading && statusFilter == old(statusFilter)
      ensures Sequences.IsSubsequence(filteredCalls, calls)
    {
      calls := fetched;
      filteredCalls := fetched;
      loading := false;
      ApplyFilter();
    }

    /** `handleFilterChange`. */
    method ChangeFilter(value: string)
      modifies this
      ensures Valid()
      ensures statusFilter == value && calls == old(calls) && loading == old(loading)
      ensures Sequences.IsSubsequence(filteredCalls, calls)
    {
      statusFilter := value;
      ApplyFilter();
    }
  }
}
