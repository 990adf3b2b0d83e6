/** The analytics screen: counts over everything stored, the completion
    rate and productivity score, and the project-status chart. The clock
    and `Date` parsing are parameters. */
module Analytics {
  import opened Wrappers
  import opened Seqs
  import opened Geometry
  import opened Entities
  import opened ProgressChart
  import Storage

  datatype Summary = Summary(
    totalWorkspaces: nat,
    totalProjects: nat,
    totalNodes: nat,
    completedNodes: nat,
    overdueNodes: nat,
    activeProjects: nat,
    completionRate: int,
    productivityScore: int)

  /** The theme colours the chart uses. */
  datatype Theme = Theme(textSecondary: string, primary: string, success: string)

  predicate IsDone(n: Node) {
    n.status == Done
  }

  /** `n.dueDate && new Date(n.dueDate) < new Date() && n.status !== 'done'`. */
  predicate IsOverdue(n: Node, now: int, parse: string -> Option<int>) {
    TruthyText(n.dueDate) && parse(n.dueDate.value).Some? && parse(n.dueDate.value).value < now
    && n.status != Done
  }

  /** `Math.round(completed / total * 100)`, or 0 with no nodes. */
  function CompletionRate(completed: nat, total: nat): (rate: int)
    ensures total == 0 ==> rate == 0
  {
    if total > 0 then Round(Share(completed, total)) else 0
  }

  /** The rate is the nearest whole percentage, within [0, 100]: 0 when
      nothing is done and 100 when everything is. */
  lemma RateIsPercentage(completed: nat, total: nat)
    requires completed <= total
    ensures 0 <= CompletionRate(completed, total) <= 100
    ensures total > 0 ==>
      CompletionRate(completed, total) as real - 0.5 <= Share(completed, total) < CompletionRate(completed, total) as real + 0.5
    ensures total > 0 && completed == total ==> CompletionRate(completed, total) == 100
    ensures completed == 0 ==> CompletionRate(completed, total) == 0
  {
    if total > 0 {
      ShareBounds(completed, total);
      if completed == 0 {
        assert Share(completed, total) == 0.0;
      }
    }
  }

  /** `Math.min(100, Math.round((rate + active * 10) / 2))`. */
  function ProductivityScore(rate: int, active: nat): (score: int)
    ensures score <= 100
    ensures rate >= 0 ==> score >= 0
  {
    var s := Round(((rate + active * 10) as real) / 2.0);
    if s < 100 then s else 100
  }

  /** `loadAnalytics`'s counts. */
  function Summarize(workspaces: seq<Workspace>, projects: seq<Project>, nodes: seq<Node>,
                     now: int, parse: string -> Option<int>): (s: Summary)
    ensures s.completedNodes + s.overdueNodes <= s.totalNodes == |nodes|
    ensures s.activeProjects <= s.totalProjects == |projects| && s.totalWorkspaces == |workspaces|
    ensures 0 <= s.completionRate <= 100 && 0 <= s.productivityScore <= 100
    ensures s.completedNodes == Count(nodes, IsDone)
    ensures s.overdueNodes == Count(nodes, (n: Node) => IsOverdue(n, now, parse))
    ensures s.activeProjects == Count(projects, (p: Project) => p.status == ProjectInProgress)
    ensures s.completionRate == CompletionRate(s.completedNodes, s.totalNodes)
    ensures s.productivityScore == ProductivityScore(s.completionRate, s.activeProjects)
  {
    var completed := Count(nodes, IsDone);
    var overdue := Count(nodes, (n: Node) => IsOverdue(n, now, parse));
    var active := Count(projects, (p: Project) => p.status == ProjectInProgress);
    var rate := CompletionRate(completed, |nodes|);
    DoneAndOverdueDisjoint(nodes, now, parse);
    RateIsPercentage(completed, |nodes|);
    Summary(|workspaces|, |projects|, |nodes|, completed, overdue, active, rate, ProductivityScore(rate, active))
  }

  /** A done node is never overdue, so the two counts fit in the total. */
  lemma {:induction false} DoneAndOverdueDisjoint(nodes: seq<Node>, now: int, parse: string -> Option<int>)
    ensures Count(nodes, IsDone) + Count(nodes, (n: Node) => IsOverdue(n, now, parse)) <= |nodes|
  {
    if nodes != [] {
      DoneAndOverdueDisjoint(nodes[..|nodes| - 1], now, parse);
    }
  }

  /** `projectsByStatus`: backlog, in-progress and done counts. */
  function Buckets(projects: seq<Project>): (r: (nat, nat, nat))
  {
    (Count(projects, (p: Project) => p.status == ProjectBacklog),
     Count(projects, (p: Project) => p.status == ProjectInProgress),
     Count(projects, (p: Project) => p.status == ProjectDone))
  }

  /** Every project is in exactly one bucket. */
  lemma {:induction false} BucketsPartition(projects: seq<Project>)
    ensures Buckets(projects).0 + Buckets(projects).1 + Buckets(projects).2 == |projects|
  {
    if projects != [] {
      BucketsPartition(projects[..|projects| - 1]);
    }
  }

  /** The chart items, each with the number of projects as its total. */
  function ChartData(projects: seq<Project>, theme: Theme): (items: seq<ChartItem>)
    ensures |items| == 3
    ensures forall i :: 0 <= i < 3 ==> items[i].total == Some(|projects|) && 0 <= items[i].value <= |projects|
    ensures items[0].caption == "Backlog" && items[0].value == Buckets(projects).0
    ensures items[1].caption == "In Progress" && items[1].value == Buckets(projects).1
    ensures items[2].caption == "Completed" && items[2].value == Buckets(projects).2
  {
    var b := Buckets(projects);
    BucketsPartition(projects);
    [ChartItem("Backlog", b.0, theme.textSecondary, Some(|projects|)),
     ChartItem("In Progress", b.1, theme.primary, Some(|projects|)),
     ChartItem("Completed", b.2, theme.success, Some(|projects|))]
  }

  /** With projects stored, every background bar is full width and every
      fill is that status's share of the projects; with none, the fills are
      empty. */
  lemma ChartShowsShares(projects: seq<Project>, theme: Theme, i: nat)
    requires i < 3
    ensures var data := ChartData(projects, theme);
      (|projects| > 0 ==>
        TotalPercentage(data[i], MaxValue(data)) == 100.0
        && Percentage(data[i], MaxValue(data)) == Share(data[i].value, |projects|))
      && (|projects| == 0 ==> Percentage(data[i], MaxValue(data)) == 0.0)
      && 0.0 <= Percentage(data[i], MaxValue(data)) <= 100.0
  {
    var data := ChartData(projects, theme);
    assert forall j :: 0 <= j < |data| ==> Extent(data[j]) == |projects|;
    UniformMax(data, |projects|);
    if |projects| > 0 {
      ShareBounds(|projects|, |projects|);
      ShareBounds(data[i].value, |projects|);
    }
  }

  class AnalyticsScreen {
    var analytics: Summary
    var chartData: seq<ChartItem>

    constructor ()
      ensures analytics == Summary(0, 0, 0, 0, 0, 0, 0, 0) && chartData == []
    {
      analytics := Summary(0, 0, 0, 0, 0, 0, 0, 0);
      chartData := [];
    }

    /** `loadAnalytics`: the summary and the chart over everything stored. */
    method Load(store: Storage.StorageService, now: int, parse: string -> Option<int>, theme: Theme)
      modifies this
      ensures analytics == Summarize(store.GetWorkspaces(), store.GetProjects(), store.GetNodes(), now, parse)
      ensures chartData == ChartData(store.GetProjects(), theme)
    {
      analytics := Summarize(store.GetWorkspaces(), store.GetProjects(), store.GetNodes(), now, parse);
      chartData := ChartData(store.GetProjects(), theme);
    }
  }
}
