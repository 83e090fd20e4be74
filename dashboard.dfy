/**
  The dashboard's derived state: the filtered job view, the list of
  backends offered by the backend selector, the message shown when no
  card is displayed, and the filter record that the three setters update.
*/
module Dashboard {
  import opened Quantum
  import opened Text

  /** The applied criteria; the empty string means "no constraint". */
  datatype Filters = Filters(search: string, status: string, backend: string)

  /** The filter record the dashboard starts with. */
  const NoFilters := Filters("", "", "")

  /**
    True when at least one criterion is set. The dashboard uses this to
    choose its empty-state message and the filter panel to decide whether
    to show the active-filter row.
  */
  predicate HasActiveFilters(f: Filters)
  {
    f.search != "" || f.status != "" || f.backend != ""
  }

  lemma HasActiveFiltersIffSet(f: Filters)
    ensures !HasActiveFilters(f) <==> f == NoFilters
  {
  }

  // ---------------------------------------------------------------------
  // The filter predicate

  /**
    Case-insensitive substring search over the id and, when present, the
    name. An absent name contributes nothing.
  */
  predicate MatchesSearch(job: Job, search: string)
  {
    search == ""
    || Includes(ToLower(job.id), ToLower(search))
    || (job.name.Some? && Includes(ToLower(job.name.value), ToLower(search)))
  }

  predicate MatchesStatus(job: Job, status: string)
  {
    status == "" || StatusName(job.status) == status
  }

  predicate MatchesBackend(job: Job, backend: string)
  {
    backend == "" || job.backend == backend
  }

  predicate Matches(job: Job, f: Filters)
  {
    MatchesSearch(job, f.search) && MatchesStatus(job, f.status) && MatchesBackend(job, f.backend)
  }

  /** `jobs.filter(...)`: the jobs that pass all three criteria, in their original order. */
  function FilteredJobs(jobs: seq<Job>, f: Filters): (r: seq<Job>)
  {
    if jobs == [] then []
    else (if Matches(jobs[0], f) then [jobs[0]] else []) + FilteredJobs(jobs[1..], f)
  }

  /** Soundness and completeness: a job is shown iff it is in the list and matches. */
  lemma {:induction false} FilteredJobsMembership(jobs: seq<Job>, f: Filters, job: Job)
    ensures job in FilteredJobs(jobs, f) <==> job in jobs && Matches(job, f)
  {
    if jobs != [] {
      FilteredJobsMembership(jobs[1..], f, job);
      assert jobs == [jobs[0]] + jobs[1..];
    }
  }

  /**
    `filter` keeps every matching element, duplicates included: each job
    occurs in the view as often as in the list if it matches, else never.
  */
  lemma {:induction false} FilteredJobsMultiplicity(jobs: seq<Job>, f: Filters, job: Job)
    ensures multiset(FilteredJobs(jobs, f))[job] == if Matches(job, f) then multiset(jobs)[job] else 0
  {
    if jobs != [] {
      FilteredJobsMultiplicity(jobs[1..], f, job);
      assert jobs == [jobs[0]] + jobs[1..];
      assert multiset(jobs) == multiset{jobs[0]} + multiset(jobs[1..]);
    }
  }

  /** `sub` is obtained from `s` by deleting elements, keeping the order of the rest. */
  predicate IsSubsequence<T(==)>(sub: seq<T>, s: seq<T>)
    decreases |s|
  {
    if sub == [] then true
    else if s == [] then false
    else (sub[0] == s[0] && IsSubsequence(sub[1..], s[1..])) || IsSubsequence(sub, s[1..])
  }

  lemma {:induction false} SubsequenceLength<T>(sub: seq<T>, s: seq<T>)
    requires IsSubsequence(sub, s)
    ensures |sub| <= |s|
    decreases |s|
  {
    if sub != [] {
      if sub[0] == s[0] && IsSubsequence(sub[1..], s[1..]) {
        SubsequenceLength(sub[1..], s[1..]);
      } else {
        SubsequenceLength(sub, s[1..]);
      }
    }
  }

  /** The filtered view keeps the source order: it is a subsequence of the jobs. */
  lemma {:induction false} FilteredJobsSubsequence(jobs: seq<Job>, f: Filters)
    ensures IsSubsequence(FilteredJobs(jobs, f), jobs)
    ensures |FilteredJobs(jobs, f)| <= |jobs|
  {
    var r := FilteredJobs(jobs, f);
    if jobs != [] {
      FilteredJobsSubsequence(jobs[1..], f);
      if Matches(jobs[0], f) {
        assert r[0] == jobs[0] && r[1..] == FilteredJobs(jobs[1..], f);
      } else {
        assert r == FilteredJobs(jobs[1..], f);
      }
      SubsequenceLength(r, jobs);
    }
  }

  /** Filtering a filtered view again with the same criteria changes nothing. */
  lemma {:induction false} FilteredJobsIdempotent(jobs: seq<Job>, f: Filters)
    ensures FilteredJobs(FilteredJobs(jobs, f), f) == FilteredJobs(jobs, f)
  {
    if jobs != [] {
      FilteredJobsIdempotent(jobs[1..], f);
      var rest := FilteredJobs(jobs[1..], f);
      if Matches(jobs[0], f) {
        assert FilteredJobs(jobs, f) == [jobs[0]] + rest;
        assert ([jobs[0]] + rest)[1..] == rest;
      } else {
        assert FilteredJobs(jobs, f) == rest;
      }
    }
  }

  /** With all three criteria empty the view is the whole list. */
  lemma {:induction false} FilteredJobsUnconstrained(jobs: seq<Job>, f: Filters)
    requires !HasActiveFilters(f)
    ensures FilteredJobs(jobs, f) == jobs
  {
    if jobs != [] {
      FilteredJobsUnconstrained(jobs[1..], f);
      assert jobs == [jobs[0]] + jobs[1..];
    }
  }

  /**
    With a status criterion set, every shown job has exactly that status,
    and every job with that status is shown once the other two criteria
    let it through.
  */
  lemma StatusFilterExact(jobs: seq<Job>, f: Filters, job: Job)
    requires f.status != ""
    ensures job in FilteredJobs(jobs, f) ==> StatusName(job.status) == f.status
    ensures job in jobs && StatusName(job.status) == f.status
            && MatchesSearch(job, f.search) && MatchesBackend(job, f.backend)
            ==> job in FilteredJobs(jobs, f)
  {
    FilteredJobsMembership(jobs, f, job);
  }

  /** A status (or any string) that no job carries gives an empty view, not an error. */
  lemma {:induction false} UnmatchedStatusGivesEmpty(jobs: seq<Job>, f: Filters)
    requires f.status != ""
    requires forall j :: j in jobs ==> StatusName(j.status) != f.status
    ensures FilteredJobs(jobs, f) == []
  {
    if jobs != [] {
      assert jobs[0] in jobs;
      UnmatchedStatusGivesEmpty(jobs[1..], f);
    }
  }

  /**
    A non-empty search matches through the id or through a present name,
    as a case-insensitive substring at some offset; a job without a name
    matches only through its id.
  */
  lemma SearchSemantics(job: Job, search: string)
    requires search != ""
    ensures MatchesSearch(job, search) <==>
      (exists k :: OccursAt(ToLower(job.id), ToLower(search), k))
      || (job.name.Some? && exists k :: OccursAt(ToLower(job.name.value), ToLower(search), k))
    ensures job.name.None? ==>
      (MatchesSearch(job, search) <==> Includes(ToLower(job.id), ToLower(search)))
  {
    IncludesAtOffset(ToLower(job.id), ToLower(search));
    if job.name.Some? {
      IncludesAtOffset(ToLower(job.name.value), ToLower(search));
    }
  }

  /** The search ignores the case of the criterion. */
  lemma SearchIgnoresCase(job: Job, search: string)
    ensures MatchesSearch(job, search) <==> MatchesSearch(job, ToLower(search))
  {
    ToLowerIdempotent(search);
  }

  /** Searching for a job's own id always finds that job. */
  lemma SearchFindsOwnId(job: Job)
    ensures MatchesSearch(job, job.id)
  {
    IncludesTrivial(ToLower(job.id));
  }

  // ---------------------------------------------------------------------
  // The backend option list

  /** `jobs.map(job => job.backend)`: one entry per job, naming exactly the jobs' backends. */
  function BackendsOf(jobs: seq<Job>): (r: seq<string>)
    ensures |r| == |jobs|
    ensures forall b :: b in r <==> exists j :: j in jobs && j.backend == b
  {
    if jobs == [] then []
    else
      assert jobs == [jobs[0]] + jobs[1..];
      [jobs[0].backend] + BackendsOf(jobs[1..])
  }

  /**
    `Array.from(new Set(xs))`: each value once, at the place of its first
    occurrence.
  */
  function Distinct(xs: seq<string>): (r: seq<string>)
    ensures NoDuplicates(r)
    ensures forall x :: x in r <==> x in xs
  {
    if xs == [] then []
    else
      var prefix := Distinct(xs[..|xs| - 1]);
      var last := xs[|xs| - 1];
      assert xs == xs[..|xs| - 1] + [last];
      if last in prefix then prefix else prefix + [last]
  }

  /** The backends the selector offers: distinct, then sorted with the default order. */
  function AvailableBackends(jobs: seq<Job>): (r: seq<string>)
  {
    SortStrings(Distinct(BackendsOf(jobs)))
  }

  /**
    The option list is strictly ascending (sorted, no duplicates) and
    holds exactly the backends of the jobs.
  */
  lemma AvailableBackendsSpec(jobs: seq<Job>)
    ensures StrictlyAscending(AvailableBackends(jobs))
    ensures forall b :: b in AvailableBackends(jobs) <==> exists j :: j in jobs && j.backend == b
  {
    var d := Distinct(BackendsOf(jobs));
    SortStringsAscending(d);
    var r := AvailableBackends(jobs);
    forall b
      ensures b in r <==> exists j :: j in jobs && j.backend == b
    {
      assert b in r <==> b in multiset(r);
      assert b in d <==> b in multiset(d);
    }
  }

  /**
    The option list is THE sorted distinct backend list: any strictly
    ascending list with the same members equals it.
  */
  lemma AvailableBackendsUnique(jobs: seq<Job>, other: seq<string>)
    requires StrictlyAscending(other)
    requires forall b :: b in other <==> exists j :: j in jobs && j.backend == b
    ensures other == AvailableBackends(jobs)
  {
    AvailableBackendsSpec(jobs);
    StrictlyAscendingUnique(other, AvailableBackends(jobs));
  }

  /** Every backend offered picks out at least one job when it is the only criterion. */
  lemma OfferedBackendNeverEmpty(jobs: seq<Job>, b: string)
    requires b in AvailableBackends(jobs)
    ensures FilteredJobs(jobs, Filters("", "", b)) != []
  {
    AvailableBackendsSpec(jobs);
    var j :| j in jobs && j.backend == b;
    FilteredJobsMembership(jobs, Filters("", "", b), j);
  }

  // ---------------------------------------------------------------------
  // What the main area shows

  const TryAdjusting := "Try adjusting your filters or search terms."
  const NoJobsAvailable := "No quantum jobs are currently available."

  /** The main area: the cards of the filtered jobs, or an empty-state message. */
  datatype MainView = Cards(jobs: seq<Job>) | NoJobsFound(message: string)

  function RenderMain(jobs: seq<Job>, f: Filters): (v: MainView)
  {
    var shown := FilteredJobs(jobs, f);
    if |shown| == 0 then
      NoJobsFound(if HasActiveFilters(f) then TryAdjusting else NoJobsAvailable)
    else Cards(shown)
  }

  /**
    The empty state appears exactly when no job matches; its text asks to
    adjust the filters iff some filter is set, and otherwise says there
    are no jobs at all.
  */
  lemma RenderMainSpec(jobs: seq<Job>, f: Filters)
    ensures RenderMain(jobs, f).NoJobsFound? <==> forall j :: j in jobs ==> !Matches(j, f)
    ensures RenderMain(jobs, f).NoJobsFound? ==>
      (RenderMain(jobs, f).message == TryAdjusting <==> HasActiveFilters(f))
    ensures RenderMain(jobs, f).NoJobsFound? && !HasActiveFilters(f) ==> jobs == []
    ensures RenderMain(jobs, f).Cards? ==> RenderMain(jobs, f).jobs == FilteredJobs(jobs, f)
  {
    var shown := FilteredJobs(jobs, f);
    forall j
      ensures j in shown <==> j in jobs && Matches(j, f)
    {
      FilteredJobsMembership(jobs, f, j);
    }
    if shown != [] {
      assert shown[0] in shown;
    }
    if !HasActiveFilters(f) {
      FilteredJobsUnconstrained(jobs, f);
    }
  }

  // ---------------------------------------------------------------------
  // Worked scenarios

  /** A job with only the required fields set. */
  function BareJob(id: string, status: Status, backend: string): (j: Job)
  {
    Job(id, None, status, backend, "", None, None, None, None, None, None, None, None)
  }

  /** Searching "a1" among jobs a1 and b2 shows job a1 only. */
  lemma ScenarioSearchById()
    ensures var jobs := [BareJob("a1", Queued, "x"), BareJob("b2", Done, "y")];
      FilteredJobs(jobs, Filters("a1", "", "")) == [jobs[0]]
  {
    var jobs := [BareJob("a1", Queued, "x"), BareJob("b2", Done, "y")];
    SearchFindsOwnId(jobs[0]);
    assert ToLower("b2") == "b2" && ToLower("a1") == "a1";
    assert !Includes("b2", "a1") by {
      assert "b2"[1..] == "2" && "2"[1..] == "";
      assert !Includes("", "a1");
      assert !Includes("2", "a1");
      assert "b2"[0] != "a1"[0];
    }
    assert jobs[1..] == [jobs[1]];
  }

  /** Filtering those two jobs by ERROR gives an empty view. */
  lemma ScenarioUnmatchedStatus()
    ensures var jobs := [BareJob("a1", Queued, "x"), BareJob("b2", Done, "y")];
      FilteredJobs(jobs, Filters("", "ERROR", "")) == []
  {
    var jobs := [BareJob("a1", Queued, "x"), BareJob("b2", Done, "y")];
    UnmatchedStatusGivesEmpty(jobs, Filters("", "ERROR", ""));
  }

  /** The two backend names of the next scenario compare at their fifth character. */
  lemma BrisbaneBeforeKyoto()
    ensures LexLess("ibm_brisbane", "ibm_kyoto")
  {
    assert LexLess("brisbane", "kyoto");
    assert "ibm_brisbane" == "ibm_" + "brisbane" && "ibm_kyoto" == "ibm_" + "kyoto";
    LexLessCommonPrefix("ibm_", "brisbane", "kyoto");
  }

  /** Two jobs on ibm_brisbane and one on ibm_kyoto offer exactly those two, in that order. */
  lemma ScenarioBackendList(j1: Job, j2: Job, j3: Job)
    requires j1.backend == "ibm_brisbane" && j2.backend == "ibm_brisbane" && j3.backend == "ibm_kyoto"
    ensures AvailableBackends([j1, j2, j3]) == ["ibm_brisbane", "ibm_kyoto"]
  {
    var jobs := [j1, j2, j3];
    var expected := ["ibm_brisbane", "ibm_kyoto"];
    BrisbaneBeforeKyoto();
    assert StrictlyAscending(expected);
    assert j1 in jobs && j3 in jobs;
    AvailableBackendsUnique(jobs, expected);
  }

  // ---------------------------------------------------------------------
  // The filter state held by the dashboard

  /**
    The dashboard component: the latest job batch and the applied filter
    record. Each setter replaces one field of the record.
  */
  class QuantumDashboard {
    var jobs: seq<Job>
    var filters: Filters

    /** Before the first fetch resolves the job list is empty; all filters start empty. */
    constructor ()
      ensures jobs == [] && filters == NoFilters
    {
      jobs := [];
      filters := NoFilters;
    }

    /** A successful fetch replaces the job list wholesale; filters are kept. */
    method ReceiveJobs(batch: seq<Job>)
      modifies this
      ensures jobs == batch && filters == old(filters)
    {
      jobs := batch;
    }

    method SetSearch(search: string)
      modifies this
      ensures filters == old(filters).(search := search)
      ensures filters.status == old(filters.status) && filters.backend == old(filters.backend)
      ensures jobs == old(jobs)
    {
      filters := filters.(search := search);
    }

    method SetStatus(status: string)
      modifies this
      ensures filters == old(filters).(status := status)
      ensures filters.search == old(filters.search) && filters.backend == old(filters.backend)
      ensures jobs == old(jobs)
    {
      filters := filters.(status := status);
    }

    method SetBackend(backend: string)
      modifies this
      ensures filters == old(filters).(backend := backend)
      ensures filters.search == old(filters.search) && filters.status == old(filters.status)
      ensures jobs == old(jobs)
    {
      filters := filters.(backend := backend);
    }
  }
}
