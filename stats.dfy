/**
  The statistics panel: five counters over the whole (unfiltered) job
  list, shown as five tiles in a fixed order.
*/
module Stats {
  import opened Quantum
  import opened Dashboard

  /** `jobs.filter(job => job.status === s).length` */
  function CountStatus(jobs: seq<Job>, s: Status): (n: nat)
    ensures n <= |jobs|
  {
    if jobs == [] then 0
    else (if jobs[0].status == s then 1 else 0) + CountStatus(jobs[1..], s)
  }

  /** The counters are taken over the jobs handed to the panel: the whole batch. */
  function ComputeStats(jobs: seq<Job>): (r: JobStats)
    ensures r.total == |jobs|
    ensures jobs == [] ==> r == JobStats(0, 0, 0, 0, 0)
  {
    JobStats(
      |jobs|,
      CountStatus(jobs, Queued),
      CountStatus(jobs, Running),
      CountStatus(jobs, Done),
      CountStatus(jobs, Error))
  }

  /** A counter is zero iff no job has that status. */
  lemma {:induction false} CountStatusZero(jobs: seq<Job>, s: Status)
    ensures CountStatus(jobs, s) == 0 <==> forall j :: j in jobs ==> j.status != s
  {
    if jobs != [] {
      CountStatusZero(jobs[1..], s);
      assert jobs == [jobs[0]] + jobs[1..];
    }
  }

  /** The seven per-status counts partition the list. */
  lemma {:induction false} CountsPartitionTotal(jobs: seq<Job>)
    ensures CountStatus(jobs, Initializing) + CountStatus(jobs, Queued)
          + CountStatus(jobs, Validating) + CountStatus(jobs, Running)
          + CountStatus(jobs, Cancelled) + CountStatus(jobs, Done)
          + CountStatus(jobs, Error) == |jobs|
  {
    if jobs != [] {
      CountsPartitionTotal(jobs[1..]);
    }
  }

  /**
    The four status tiles count disjoint sets of jobs, so together they
    never exceed the total; they reach it exactly when no job is
    initializing, validating or cancelled.
  */
  lemma BucketsWithinTotal(jobs: seq<Job>)
    ensures var r := ComputeStats(jobs);
      r.queued + r.running + r.completed + r.failed <= r.total
    ensures var r := ComputeStats(jobs);
      r.queued + r.running + r.completed + r.failed == r.total
      <==> forall j :: j in jobs ==> j.status in {Queued, Running, Done, Error}
  {
    CountsPartitionTotal(jobs);
    CountStatusZero(jobs, Initializing);
    CountStatusZero(jobs, Validating);
    CountStatusZero(jobs, Cancelled);
  }

  /**
    Each status counter equals the number of cards the dashboard would
    show with that status as the only filter.
  */
  lemma {:induction false} CountIsFilteredLength(jobs: seq<Job>, s: Status)
    ensures CountStatus(jobs, s) == |FilteredJobs(jobs, Filters("", StatusName(s), ""))|
  {
    if jobs != [] {
      CountIsFilteredLength(jobs[1..], s);
      StatusNameInjective(jobs[0].status, s);
    }
  }

  /**
    The tiles describe the whole batch whatever the filters: the total is
    never below the number of cards shown, and each status tile is never
    below the number of shown cards with that status.
  */
  lemma {:induction false} StatsBoundFilteredView(jobs: seq<Job>, f: Filters, s: Status)
    ensures ComputeStats(jobs).total >= |FilteredJobs(jobs, f)|
    ensures CountStatus(jobs, s) >= CountStatus(FilteredJobs(jobs, f), s)
  {
    FilteredJobsSubsequence(jobs, f);
    if jobs != [] {
      StatsBoundFilteredView(jobs[1..], f, s);
      var rest := FilteredJobs(jobs[1..], f);
      if Matches(jobs[0], f) {
        assert FilteredJobs(jobs, f) == [jobs[0]] + rest;
        assert ([jobs[0]] + rest)[1..] == rest;
      } else {
        assert FilteredJobs(jobs, f) == rest;
      }
    }
  }

  /** One tile of the panel. Only the first tile glows. */
  datatype StatCard = StatCard(title: string, value: nat, color: string, glow: bool)

  function StatCards(stats: JobStats): (cards: seq<StatCard>)
    ensures |cards| == 5
    ensures cards[0].value == stats.total && cards[1].value == stats.queued
         && cards[2].value == stats.running && cards[3].value == stats.completed
         && cards[4].value == stats.failed
  {
    [
      StatCard("Total Jobs", stats.total, "text-foreground", true),
      StatCard("Queued", stats.queued, "text-quantum-warning", false),
      StatCard("Running", stats.running, "text-quantum-blue", false),
      StatCard("Completed", stats.completed, "text-quantum-success", false),
      StatCard("Failed", stats.failed, "text-quantum-error", false)
    ]
  }

  /**
    The tiles' titles are pairwise distinct (they key the tiles), the
    total tile alone glows, and the four status tiles add up to at most
    the total tile.
  */
  lemma StatCardsOfJobs(jobs: seq<Job>)
    ensures var cards := StatCards(ComputeStats(jobs));
      (forall i, k :: 0 <= i < k < 5 ==> cards[i].title != cards[k].title)
      && (forall i :: 0 <= i < 5 ==> (cards[i].glow <==> i == 0))
      && cards[1].value + cards[2].value + cards[3].value + cards[4].value <= cards[0].value
      && cards[0].value == |jobs|
  {
    BucketsWithinTotal(jobs);
  }
}
