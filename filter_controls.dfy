/**
  The filter panel: a search box with its own unsubmitted text, two
  selectors, and a row of removable badges for the applied criteria. The
  applied criteria live in the dashboard; the panel changes them only
  through the dashboard's setters.
*/
module FilterControls {
  import opened Quantum
  import opened Text
  import opened Dashboard

  /** One entry of a selector: the value it applies and the caption it shows. */
  datatype SelectOption = SelectOption(value: string, caption: string)

  /** The status selector's entries, in display order. */
  const StatusOptions: seq<SelectOption> := [
    SelectOption("", "All Statuses"),
    SelectOption("QUEUED", "Queued"),
    SelectOption("RUNNING", "Running"),
    SelectOption("DONE", "Completed"),
    SelectOption("ERROR", "Failed"),
    SelectOption("VALIDATING", "Validating")
  ]

  /**
    The status selector offers "no constraint" and then exactly the names
    of Queued, Running, Done, Error and Validating, in that order; every
    value it offers is either empty or the name of a status, and
    Initializing and Cancelled can never be chosen.
  */
  lemma StatusOptionsSpec()
    ensures |StatusOptions| == 6 && StatusOptions[0].value == ""
    ensures [StatusOptions[1].value, StatusOptions[2].value, StatusOptions[3].value,
             StatusOptions[4].value, StatusOptions[5].value]
         == [StatusName(Queued), StatusName(Running), StatusName(Done),
             StatusName(Error), StatusName(Validating)]
    ensures forall o :: o in StatusOptions && o.value != "" ==>
      exists s :: StatusName(s) == o.value
    ensures forall o :: o in StatusOptions ==>
      o.value != StatusName(Initializing) && o.value != StatusName(Cancelled)
  {
    var named := [Queued, Queued, Running, Done, Error, Validating];
    assert forall i :: 1 <= i < 6 ==> StatusOptions[i].value == StatusName(named[i]);
  }

  /** The backend selector: "All Backends", then the offered backends in their order. */
  function BackendOptions(backends: seq<string>): (r: seq<SelectOption>)
    ensures |r| == |backends| + 1
    ensures r[0] == SelectOption("", "All Backends")
    ensures forall i :: 0 <= i < |backends| ==> r[i + 1] == SelectOption(backends[i], backends[i])
  {
    [SelectOption("", "All Backends")]
      + seq(|backends|, i requires 0 <= i < |backends| => SelectOption(backends[i], backends[i]))
  }

  /**
    The backend selector's values are pairwise distinct exactly when no
    job has the empty string as its backend: such a backend would collide
    with "All Backends".
  */
  lemma BackendOptionValuesDistinct(jobs: seq<Job>)
    ensures var opts := BackendOptions(AvailableBackends(jobs));
      (forall i, k :: 0 <= i < k < |opts| ==> opts[i].value != opts[k].value)
      <==> forall j :: j in jobs ==> j.backend != ""
  {
    var bs := AvailableBackends(jobs);
    var opts := BackendOptions(bs);
    AvailableBackendsSpec(jobs);
    StrictlyAscendingHasNoDuplicates(bs);
    if exists j :: j in jobs && j.backend == "" {
      assert "" in bs;
      var i :| 0 <= i < |bs| && bs[i] == "";
      assert opts[0].value == opts[i + 1].value;
    } else {
      forall i, k | 0 <= i < k < |opts|
        ensures opts[i].value != opts[k].value
      {
        if i == 0 {
          assert opts[k].value == bs[k - 1] && bs[k - 1] in bs;
        } else {
          assert opts[i].value == bs[i - 1] && opts[k].value == bs[k - 1];
        }
      }
    }
  }

  /** A removable badge of the active-filter row. */
  datatype Badge = SearchBadge(text: string) | StatusBadge(status: string) | BackendBadge(backend: string)

  /** The badges shown for the applied criteria, one per non-empty criterion. */
  function ActiveBadges(f: Filters): (r: seq<Badge>)
  {
    (if f.search != "" then [SearchBadge(f.search)] else [])
    + (if f.status != "" then [StatusBadge(f.status)] else [])
    + (if f.backend != "" then [BackendBadge(f.backend)] else [])
  }

  /**
    The active-filter row (badges and "Clear all") is shown iff some
    criterion is set, and then it shows one badge per set criterion, in
    the order search, status, backend.
  */
  lemma ActiveBadgesSpec(f: Filters)
    ensures ActiveBadges(f) != [] <==> HasActiveFilters(f)
    ensures SearchBadge(f.search) in ActiveBadges(f) <==> f.search != ""
    ensures StatusBadge(f.status) in ActiveBadges(f) <==> f.status != ""
    ensures BackendBadge(f.backend) in ActiveBadges(f) <==> f.backend != ""
    ensures |ActiveBadges(f)| == (if f.search != "" then 1 else 0)
      + (if f.status != "" then 1 else 0) + (if f.backend != "" then 1 else 0)
  {
  }

  /**
    The panel. `localSearch` is the text in the search box; the applied
    criteria are the host dashboard's filter record.
  */
  class JobFilters {
    var localSearch: string
    const host: QuantumDashboard

    /** The search box starts with the applied search text. */
    constructor (host: QuantumDashboard)
      ensures this.host == host
      ensures localSearch == host.filters.search
    {
      this.host := host;
      localSearch := host.filters.search;
    }

    /** Typing changes only the box; nothing is applied. */
    method OnInput(text: string)
      modifies this
      ensures localSearch == text
      ensures host.filters == old(host.filters) && host.jobs == old(host.jobs)
    {
      localSearch := text;
    }

    /** Submitting applies the box's text as the search; status and backend stay. */
    method HandleSearchSubmit()
      modifies host
      ensures host.filters == old(host.filters).(search := localSearch)
      ensures host.jobs == old(host.jobs)
      ensures localSearch == old(localSearch)
    {
      host.SetSearch(localSearch);
    }

    /** Choosing a status in the selector applies it; the other criteria stay. */
    method OnStatusSelect(value: string)
      modifies host
      ensures host.filters == old(host.filters).(status := value)
      ensures host.jobs == old(host.jobs)
    {
      host.SetStatus(value);
    }

    /** Choosing a backend in the selector applies it; the other criteria stay. */
    method OnBackendSelect(value: string)
      modifies host
      ensures host.filters == old(host.filters).(backend := value)
      ensures host.jobs == old(host.jobs)
    {
      host.SetBackend(value);
    }

    /** "Clear all": the box and all three criteria become empty, so every job is shown. */
    method ClearAllFilters()
      modifies this, host
      ensures localSearch == ""
      ensures host.filters == NoFilters && !HasActiveFilters(host.filters)
      ensures host.jobs == old(host.jobs)
      ensures FilteredJobs(host.jobs, host.filters) == host.jobs
    {
      localSearch := "";
      host.SetSearch("");
      host.SetStatus("");
      host.SetBackend("");
      FilteredJobsUnconstrained(host.jobs, host.filters);
    }

    /** Removing the search badge empties the box and the search; status and backend stay. */
    method RemoveSearchBadge()
      modifies this, host
      ensures localSearch == ""
      ensures host.filters == old(host.filters).(search := "")
      ensures host.jobs == old(host.jobs)
    {
      localSearch := "";
      host.SetSearch("");
    }

    /** Removing the status badge clears the status only. */
    method RemoveStatusBadge()
      modifies host
      ensures host.filters == old(host.filters).(status := "")
      ensures host.jobs == old(host.jobs)
      ensures localSearch == old(localSearch)
    {
      host.SetStatus("");
    }

    /** Removing the backend badge clears the backend only. */
    method RemoveBackendBadge()
      modifies host
      ensures host.filters == old(host.filters).(backend := "")
      ensures host.jobs == old(host.jobs)
      ensures localSearch == old(localSearch)
    {
      host.SetBackend("");
    }
  }
}
