/**
 * src/pages/dashboard.tsx: the figures `fetchDashboardData` derives from the
 * client, lead and task listings: the per-stage lead counter, the completed
 * task count, the `|| 0` fallbacks and the five most recent tasks.
 */
module Dashboard {
  import opened Wrappers
  import opened Web
  import opened ApiClient
  import opened Seqs

  /** The keys of `leadStatusCounts`, in order; `Lost` has no slot. */
  const PipelineStages: seq<string> :=
    ["Start-to-Call", "Call-to-Connect", "Connect-to-Contact", "Contact-to-Demo", "Demo-to-Close"]
  const RecentTaskCount := 5
  const CompletedStatus := "completed"

  /** A listed lead or task, reduced to its `statut`; a missing one is None. */
  datatype Lead = Lead(id: string, statut: Option<string>)
  datatype Task = Task(id: string, statut: Option<string>)

  /** A listing response: its array field (None when absent) and its `total`. */
  datatype Listing<T> = Listing(items: Option<seq<T>>, total: Option<int>)

  /** The `stats` state. */
  datatype Stats = Stats(clientCount: int, leadCount: int, taskCount: int, completedTasks: int)

  /** The number of leads whose `statut` is exactly `s`. */
  function CountStatus(leads: seq<Lead>, s: string): (n: nat)
    ensures n <= |leads|
  {
    if leads == [] then 0
    else (if leads[0].statut == Some(s) then 1 else 0) + CountStatus(leads[1..], s)
  }

  /** Counting one more lead adds one exactly when its `statut` is `s`. */
  lemma {:induction false} CountStatusSnoc(leads: seq<Lead>, l: Lead, s: string)
    ensures CountStatus(leads + [l], s) == CountStatus(leads, s) + (if l.statut == Some(s) then 1 else 0)
  {
    if leads != [] {
      assert (leads + [l])[1..] == leads[1..] + [l];
      CountStatusSnoc(leads[1..], l, s);
    }
  }

  /** The counter agrees with an independent reading: the length of the filtered list. */
  lemma {:induction false} CountStatusIsFilterLength(leads: seq<Lead>, s: string)
    ensures CountStatus(leads, s) == |Filter(leads, (l: Lead) => l.statut == Some(s))|
  {
    if leads != [] {
      CountStatusIsFilterLength(leads[1..], s);
    }
  }

  /**
   * The `forEach` over `leads.leads`: a lead whose `statut` names a slot of
   * the counter increments that slot; any other lead is skipped.
   */
  method CountLeadsByStatus(leads: seq<Lead>) returns (counts: map<string, nat>)
    ensures counts.Keys == set s | s in PipelineStages
    ensures forall s :: s in counts ==> counts[s] == CountStatus(leads, s)
  {
    counts := map s | s in PipelineStages :: 0;
    var i := 0;
    while i < |leads|
      invariant 0 <= i <= |leads|
      invariant counts.Keys == set s | s in PipelineStages
      invariant forall s :: s in counts ==> counts[s] == CountStatus(leads[..i], s)
    {
      assert leads[..i + 1] == leads[..i] + [leads[i]];
      forall s | s in counts {
        CountStatusSnoc(leads[..i], leads[i], s);
      }
      var statut := leads[i].statut;
      if statut.Some? && statut.value in counts {
        counts := counts[statut.value := counts[statut.value] + 1];
      }
      i := i + 1;
    }
    assert leads[..i] == leads;
  }

  /** The sum of the counts of `stages`. */
  function SumCounts(leads: seq<Lead>, stages: seq<string>): nat {
    if stages == [] then 0 else CountStatus(leads, stages[0]) + SumCounts(leads, stages[1..])
  }

  /** How many of `stages` one lead's `statut` equals. */
  function Hits(l: Lead, stages: seq<string>): nat {
    if stages == [] then 0 else (if l.statut == Some(stages[0]) then 1 else 0) + Hits(l, stages[1..])
  }

  predicate Distinct(stages: seq<string>) {
    forall i, j :: 0 <= i < j < |stages| ==> stages[i] != stages[j]
  }

  /** Among distinct stages a lead hits at most one, and one exactly when it names one. */
  lemma {:induction false} HitsDistinct(l: Lead, stages: seq<string>)
    requires Distinct(stages)
    ensures Hits(l, stages) == if l.statut.Some? && l.statut.value in stages then 1 else 0
  {
    if stages != [] {
      assert Distinct(stages[1..]) by {
        forall i, j | 0 <= i < j < |stages[1..]| ensures stages[1..][i] != stages[1..][j] {
          assert stages[1..][i] == stages[i + 1] && stages[1..][j] == stages[j + 1];
        }
      }
      HitsDistinct(l, stages[1..]);
      if l.statut == Some(stages[0]) {
        assert stages[0] !in stages[1..] by {
          forall k | 0 <= k < |stages[1..]| ensures stages[1..][k] != stages[0] {
            assert stages[1..][k] == stages[k + 1];
          }
        }
      }
      assert l.statut.Some? && l.statut.value in stages <==>
        l.statut == Some(stages[0]) || (l.statut.Some? && l.statut.value in stages[1..]);
    }
  }

  /** Summing over stages, the first lead contributes its hits. */
  lemma {:induction false} SumCountsCons(leads: seq<Lead>, stages: seq<string>)
    requires leads != []
    ensures SumCounts(leads, stages) == Hits(leads[0], stages) + SumCounts(leads[1..], stages)
  {
    if stages != [] {
      SumCountsCons(leads, stages[1..]);
    }
  }

  /** The number of leads whose `statut` is one of `stages`. */
  function CountIn(leads: seq<Lead>, stages: seq<string>): (n: nat)
    ensures n <= |leads|
  {
    if leads == [] then 0
    else (if leads[0].statut.Some? && leads[0].statut.value in stages then 1 else 0) + CountIn(leads[1..], stages)
  }

  /** Over distinct stages the counts add up to the number of leads in those stages. */
  lemma {:induction false} SumCountsDistinct(leads: seq<Lead>, stages: seq<string>)
    requires Distinct(stages)
    ensures SumCounts(leads, stages) == CountIn(leads, stages)
  {
    if leads != [] {
      SumCountsCons(leads, stages);
      HitsDistinct(leads[0], stages);
      SumCountsDistinct(leads[1..], stages);
    } else if stages != [] {
      SumCountsEmpty(stages);
    }
  }

  lemma {:induction false} SumCountsEmpty(stages: seq<string>)
    ensures SumCounts([], stages) == 0
  {
    if stages != [] {
      SumCountsEmpty(stages[1..]);
    }
  }

  /**
   * The five counts add up to the number of leads in a pipeline stage, so to
   * at most the number of leads; leads with any other status are not counted.
   */
  lemma StageCountsBounded(leads: seq<Lead>)
    ensures SumCounts(leads, PipelineStages) == CountIn(leads, PipelineStages)
    ensures SumCounts(leads, PipelineStages) <= |leads|
  {
    SumCountsDistinct(leads, PipelineStages);
  }

  predicate IsCompleted(t: Task) {
    t.statut == Some(CompletedStatus)
  }

  /** `tasks.filter(task => task.statut === 'completed').length`. */
  function CompletedCount(tasks: seq<Task>): (n: nat)
    ensures n <= |tasks|
    ensures n == |tasks| <==> forall i :: 0 <= i < |tasks| ==> IsCompleted(tasks[i])
  {
    FilterAllIffLength(tasks, IsCompleted);
    |Filter(tasks, IsCompleted)|
  }

  /** The filter keeps everything exactly when every element satisfies the predicate. */
  lemma {:induction false} FilterAllIffLength<T>(s: seq<T>, p: T -> bool)
    ensures |Filter(s, p)| == |s| <==> forall i :: 0 <= i < |s| ==> p(s[i])
  {
    if s != [] {
      FilterAllIffLength(s[1..], p);
      if p(s[0]) {
        assert (forall i :: 0 <= i < |s| ==> p(s[i])) <==> (forall i :: 0 <= i < |s[1..]| ==> p(s[1..][i]));
      } else {
        assert |Filter(s[1..], p)| <= |s[1..]|;
      }
    }
  }

  /** `x || 0` on a count the server may leave out (or report as 0). */
  function OrZero(x: Option<int>): (r: int)
    ensures x.None? ==> r == 0
    ensures x.Some? ==> r == x.value
  {
    x.GetOr(0)
  }

  /** The stats computed from the three listings. */
  function StatsOf(clients: Listing<string>, leads: Listing<Lead>, tasks: seq<Task>, taskTotal: Option<int>): (st: Stats)
    ensures st.clientCount == OrZero(clients.total) && st.leadCount == OrZero(leads.total)
    ensures st.taskCount == OrZero(taskTotal) && 0 <= st.completedTasks <= |tasks|
  {
    Stats(OrZero(clients.total), OrZero(leads.total), OrZero(taskTotal), CompletedCount(tasks))
  }

  /** The "Pending" slice of the completion chart. */
  function PendingTasks(st: Stats): int {
    st.taskCount - st.completedTasks
  }

  /** The pending figure is not negative when the server total covers the fetched page. */
  lemma PendingNonNegative(clients: Listing<string>, leads: Listing<Lead>, tasks: seq<Task>, taskTotal: Option<int>)
    requires OrZero(taskTotal) >= |tasks|
    ensures PendingTasks(StatsOf(clients, leads, tasks, taskTotal)) >= 0
  {
  }

  /**
   * The pending figure mixes the server total with a count over the fetched
   * page only: with no total reported, one completed task gives -1.
   */
  lemma PendingCanBeNegative()
    ensures PendingTasks(StatsOf(Listing(None, None), Listing(None, None), [Task("t", Some(CompletedStatus))], None)) == -1
  {
    assert Filter([Task("t", Some(CompletedStatus))], IsCompleted) == [Task("t", Some(CompletedStatus))];
  }

  /** The dashboard's state. */
  class DashboardPage {
    const toaster: Toaster
    var loading: bool
    var stats: Stats
    var leadsByStatus: map<string, nat>
    var recentTasks: seq<Task>
    var clients: seq<string>

    constructor(toaster: Toaster)
      ensures this.toaster == toaster && loading
      ensures stats == Stats(0, 0, 0, 0) && recentTasks == [] && clients == []
      ensures leadsByStatus == map s | s in PipelineStages :: 0
    {
      this.toaster := toaster;
      loading := true;
      stats := Stats(0, 0, 0, 0);
      leadsByStatus := map s | s in PipelineStages :: 0;
      recentTasks := [];
      clients := [];
    }

    /**
     * `fetchDashboardData`, given the three responses. The client list is set
     * as soon as its response arrives. A failed request, or a lead or task
     * listing without its array, ends in the `catch` and leaves the other
     * figures as they were. `loading` ends false in every case.
     */
    method FetchDashboardData(clientsResp: Outcome<Listing<string>>, leadsResp: Outcome<Listing<Lead>>,
                              tasksResp: Outcome<Listing<Task>>)
      modifies this, toaster
      ensures !loading
      ensures clients == if clientsResp.Ok? then clientsResp.value.items.GetOr([]) else old(clients)
      ensures var succeeded := clientsResp.Ok? && leadsResp.Ok? && leadsResp.value.items.Some?
                              && tasksResp.Ok? && tasksResp.value.items.Some?;
        (succeeded ==>
          var leads := leadsResp.value.items.value;
          var tasks := tasksResp.value.items.value;
          stats == StatsOf(clientsResp.value, leadsResp.value, tasks, tasksResp.value.total)
          && leadsByStatus.Keys == (set s | s in PipelineStages)
          && (forall s :: s in leadsByStatus ==> leadsByStatus[s] == CountStatus(leads, s))
          && recentTasks == Take(tasks, RecentTaskCount)
          && toaster.shown == old(toaster.shown))
        && (!succeeded ==>
          stats == old(stats) && leadsByStatus == old(leadsByStatus) && recentTasks == old(recentTasks)
          && toaster.shown == old(toaster.shown) + [Error("Failed to load dashboard data")])
    {
      loading := true;
      if clientsResp.Fail? {
        toaster.Show(Error("Failed to load dashboard data"));
        loading := false;
        return;
      }
      clients := clientsResp.value.items.GetOr([]);
      if leadsResp.Fail? || leadsResp.value.items.None? {
        toaster.Show(Error("Failed to load dashboard data"));
        loading := false;
        return;
      }
      var counts := CountLeadsByStatus(leadsResp.value.items.value);
      if tasksResp.Fail? || tasksResp.value.items.None? {
        toaster.Show(Error("Failed to load dashboard data"));
        loading := false;
        return;
      }
      var tasks := tasksResp.value.items.value;
      stats := StatsOf(clientsResp.value, leadsResp.value, tasks, tasksResp.value.total);
      leadsByStatus := counts;
      recentTasks := Take(tasks, RecentTaskCount);
      loading := false;
    }
  }
}
