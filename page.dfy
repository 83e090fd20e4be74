/**
  The loaded page as a whole: which job list each panel is handed. The
  statistics panel and the backend selector receive the whole batch; only
  the main area receives the filtered view.
*/
module Page {
  import opened Quantum
  import opened Dashboard
  import opened Stats
  import opened FilterControls

  /** The parts of the page that depend on the jobs and the filters. */
  datatype PageView = PageView(
    tiles: seq<StatCard>,
    backendOptions: seq<SelectOption>,
    badges: seq<Badge>,
    main: MainView)

  /**
    The statistics tiles over the batch, the filter panel with the batch's
    backends and the applied criteria, and the main area.
  */
  function RenderPage(jobs: seq<Job>, f: Filters): (v: PageView)
    ensures |v.tiles| == 5 && v.tiles[0].value == |jobs|
    ensures |v.backendOptions| == |AvailableBackends(jobs)| + 1
    ensures v.badges != [] <==> HasActiveFilters(f)
  {
    ActiveBadgesSpec(f);
    PageView(
      StatCards(ComputeStats(jobs)),
      BackendOptions(AvailableBackends(jobs)),
      ActiveBadges(f),
      RenderMain(jobs, f))
  }

  /** Changing the filters changes neither the tiles nor the backend selector's options. */
  lemma PanelsIgnoreFilters(jobs: seq<Job>, f: Filters, g: Filters)
    ensures RenderPage(jobs, f).tiles == RenderPage(jobs, g).tiles
    ensures RenderPage(jobs, f).backendOptions == RenderPage(jobs, g).backendOptions
  {
  }

  /**
    Whatever the filters hide, the tiles count the whole batch, each status
    tile counts every job of its status, and the backend selector offers
    every backend of the batch; only the main area is narrowed to the
    filtered view.
  */
  lemma PanelsSeeWholeBatch(jobs: seq<Job>, f: Filters)
    ensures var v := RenderPage(jobs, f);
      v.tiles[0].value == |jobs| >= |FilteredJobs(jobs, f)|
      && v.tiles[1].value == CountStatus(jobs, Queued)
      && v.tiles[2].value == CountStatus(jobs, Running)
      && v.tiles[3].value == CountStatus(jobs, Done)
      && v.tiles[4].value == CountStatus(jobs, Error)
    ensures forall j :: j in jobs ==>
      SelectOption(j.backend, j.backend) in RenderPage(jobs, f).backendOptions
    ensures RenderPage(jobs, f).main.Cards? ==>
      RenderPage(jobs, f).main.jobs == FilteredJobs(jobs, f)
  {
    var bs := AvailableBackends(jobs);
    var opts := RenderPage(jobs, f).backendOptions;
    FilteredJobsSubsequence(jobs, f);
    AvailableBackendsSpec(jobs);
    RenderMainSpec(jobs, f);
    forall j | j in jobs
      ensures SelectOption(j.backend, j.backend) in opts
    {
      assert j.backend in bs;
      var i :| 0 <= i < |bs| && bs[i] == j.backend;
      assert opts[i + 1] == SelectOption(j.backend, j.backend);
    }
  }
}
