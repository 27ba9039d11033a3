/**
 * The dashboard: three counts and the five most recent tasks and workflows, derived once
 * from the two fetched collections.
 */
module Dashboard {
  import opened Wrappers
  import opened ApiRecords

  /** How many items each recent list shows. */
  const RecentCount := 5

  datatype Stats = Stats(totalTasks: nat, totalWorkflows: nat, activeWorkflows: nat)

  /** `w.status === 'ACTIVE'`: exact and case-sensitive; a null status is not active. */
  predicate IsActive(w: WorkflowRecord) {
    w.status == Some("ACTIVE")
  }

  /** `workflows.filter(w => w.status === 'ACTIVE').length`. */
  function CountActive(workflows: seq<WorkflowRecord>): (n: nat)
    ensures n <= |workflows|
    ensures n == 0 <==> forall w :: w in workflows ==> !IsActive(w)
    ensures n == |workflows| <==> forall w :: w in workflows ==> IsActive(w)
  {
    if workflows == [] then 0
    else
      assert forall w :: w in workflows <==> w == workflows[0] || w in workflows[1..];
      (if IsActive(workflows[0]) then 1 else 0) + CountActive(workflows[1..])
  }

  /** Counting the active workflows of two lists adds up. */
  lemma {:induction false} CountActiveAppend(a: seq<WorkflowRecord>, b: seq<WorkflowRecord>)
    ensures CountActive(a + b) == CountActive(a) + CountActive(b)
  {
    if a == [] {
      assert a + b == b;
    } else {
      assert (a + b)[1..] == a[1..] + b;
      CountActiveAppend(a[1..], b);
    }
  }

  function Min(a: int, b: int): int {
    if a <= b then a else b
  }

  /** `s.reverse()`. */
  function Reverse<T>(s: seq<T>): (r: seq<T>)
    ensures |r| == |s|
  {
    if s == [] then [] else Reverse(s[1..]) + [s[0]]
  }

  lemma {:induction false} ReverseAt<T>(s: seq<T>, i: nat)
    requires i < |s|
    ensures Reverse(s)[i] == s[|s| - 1 - i]
  {
    if i < |s| - 1 {
      ReverseAt(s[1..], i);
    }
  }

  /**
   * `s.slice(-5).reverse()`: at most five items, newest first, where "newest" means last in
   * the collection's order.
   */
  function Recent<T>(s: seq<T>): (r: seq<T>)
    ensures |r| == Min(|s|, RecentCount)
    ensures forall i :: 0 <= i < |r| ==> r[i] == s[|s| - 1 - i]
  {
    var tail := s[|s| - Min(|s|, RecentCount)..];
    forall i | 0 <= i < |tail|
      ensures Reverse(tail)[i] == s[|s| - 1 - i]
    {
      ReverseAt(tail, i);
    }
    Reverse(tail)
  }

  /** The statistics derived from the two collections. */
  function ComputeStats(tasks: seq<TaskRecord>, workflows: seq<WorkflowRecord>): (stats: Stats)
    ensures stats.totalTasks == |tasks| && stats.totalWorkflows == |workflows|
    ensures stats.activeWorkflows <= stats.totalWorkflows
    ensures stats.activeWorkflows == 0 <==> forall w :: w in workflows ==> !IsActive(w)
  {
    Stats(|tasks|, |workflows|, CountActive(workflows))
  }

  /** The `Dashboard` component's state. */
  class DashboardView {
    var stats: Stats
    var loading: bool
    var recentTasks: seq<TaskRecord>
    var recentWorkflows: seq<WorkflowRecord>

    /** The state the dashboard mounts with: zeros, empty lists, loading. */
    constructor ()
      ensures stats == Stats(0, 0, 0) && loading && recentTasks == [] && recentWorkflows == []
    {
      stats, loading, recentTasks, recentWorkflows := Stats(0, 0, 0), true, [], [];
    }

    /**
     * `fetchDashboardData` settling: on success the counts are the sizes of the two collections
     * (a null body reads as empty) and the number of ACTIVE workflows, and each recent list is
     * the last five items, newest first; when either call fails everything keeps its value.
     * Either way loading ends.
     */
    method FetchDashboardData(response: Response<(Option<seq<TaskRecord>>, Option<seq<WorkflowRecord>>)>)
      modifies this
      ensures !loading
      ensures response.Failed? ==>
        stats == old(stats) && recentTasks == old(recentTasks) && recentWorkflows == old(recentWorkflows)
      ensures response.Ok? ==>
        var tasks := OrEmpty(response.data.0);
        var workflows := OrEmpty(response.data.1);
        && stats == Stats(|tasks|, |workflows|, CountActive(workflows))
        && recentTasks == Recent(tasks)
        && recentWorkflows == Recent(workflows)
    {
      match response {
        case Ok((ts, ws)) =>
          var tasks := OrEmpty(ts);
          var workflows := OrEmpty(ws);
          stats := ComputeStats(tasks, workflows);
          recentTasks := Recent(tasks);
          recentWorkflows := Recent(workflows);
        case Failed(_) =>
      }
      loading := false;
    }
  }

  /** A failed fetch on mount leaves zeros and empty lists on screen. */
  method FailedFetchShowsNothing(message: Option<string>)
  {
    var view := new DashboardView();
    view.FetchDashboardData(Failed(message));
    assert view.stats == Stats(0, 0, 0) && view.recentTasks == [] && view.recentWorkflows == [];
    assert !view.loading;
  }

  /** The status test is case-sensitive: a lower-case "active" workflow is not counted. */
  lemma LowerCaseActiveNotCounted(w: WorkflowRecord)
    requires w.status == Some("active")
    ensures CountActive([w]) == 0
  {
  }
}
