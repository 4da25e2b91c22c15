/**
 * The job list page (src/pages/JobList.tsx): the search-and-status filter over the job list,
 * the status options offered in the filter, and the status-to-badge lookup.
 *
 * `toLowerCase` is taken per character from a `lower` parameter; `includes` is `Includes`.
 */
module JobList {
  import opened Wrappers
  import opened Types
  import Seqs

  /** `s.toLowerCase()`, given the per-character case mapping `lower`. */
  function Lowered(lower: char -> char, s: string): (r: string)
    ensures |r| == |s|
    ensures forall i :: 0 <= i < |s| ==> r[i] == lower(s[i])
  {
    if s == [] then [] else [lower(s[0])] + Lowered(lower, s[1..])
  }

  /** `hay.includes(needle)`, tried at each start position from the left. */
  predicate Includes(hay: string, needle: string)
    decreases |hay|
  {
    |needle| <= |hay| && (hay[..|needle|] == needle || Includes(hay[1..], needle))
  }

  /** `needle` occurs in `hay` starting at position `i`. */
  predicate OccursAt(hay: string, needle: string, i: int) {
    0 <= i && i + |needle| <= |hay| && hay[i..i + |needle|] == needle
  }

  /** Where `Includes` succeeds, the needle occurs at some position. */
  lemma {:induction false} IncludesHasOccurrence(hay: string, needle: string) returns (i: nat)
    requires Includes(hay, needle)
    ensures OccursAt(hay, needle, i)
  {
    if hay[..|needle|] == needle {
      i := 0;
    } else {
      var j := IncludesHasOccurrence(hay[1..], needle);
      assert hay[1..][j..j + |needle|] == hay[j + 1..j + 1 + |needle|];
      i := j + 1;
    }
  }

  /** Wherever the needle occurs, `Includes` finds it. */
  lemma {:induction false} OccurrenceIsIncluded(hay: string, needle: string, i: int)
    requires OccursAt(hay, needle, i)
    ensures Includes(hay, needle)
    decreases i
  {
    if hay[..|needle|] != needle {
      assert hay[1..][i - 1..i - 1 + |needle|] == hay[i..i + |needle|];
      OccurrenceIsIncluded(hay[1..], needle, i - 1);
    }
  }

  /** `Includes` finds exactly the substrings: those that occur at some position. */
  lemma IncludesIffOccurs(hay: string, needle: string)
    ensures Includes(hay, needle) <==> exists i :: OccursAt(hay, needle, i)
  {
    if Includes(hay, needle) {
      var i := IncludesHasOccurrence(hay, needle);
    }
    forall i | OccursAt(hay, needle, i) ensures Includes(hay, needle) {
      OccurrenceIsIncluded(hay, needle, i);
    }
  }

  /** The empty string occurs in every string. */
  lemma EmptyIncluded(hay: string)
    ensures Includes(hay, "")
  {
  }

  /** The status select's value: `'all'` or one job status. */
  datatype StatusFilter = All | Only(status: JobStatus)

  /**
   * The search half of the predicate: the lowercased query in the lowercased code or
   * customer name, or the raw query in the phone number.
   */
  predicate MatchesSearch(lower: char -> char, query: string, job: Job) {
    || Includes(Lowered(lower, job.code), Lowered(lower, query))
    || Includes(Lowered(lower, job.customer.name), Lowered(lower, query))
    || Includes(job.customer.phone, query)
  }

  /** The status half: `'all'` admits every job, anything else the jobs of equal status. */
  predicate MatchesStatus(filter: StatusFilter, job: Job) {
    filter.All? || job.status == filter.status
  }

  function JobMatches(lower: char -> char, query: string, filter: StatusFilter): Job -> bool {
    job => MatchesSearch(lower, query, job) && MatchesStatus(filter, job)
  }

  /** `filteredJobs`: the jobs satisfying both halves, in list order. */
  function FilteredJobs(jobs: seq<Job>, lower: char -> char, query: string, filter: StatusFilter): (r: seq<Job>)
    ensures |r| <= |jobs|
    ensures forall i :: 0 <= i < |r| ==>
      r[i] in jobs && MatchesSearch(lower, query, r[i]) && MatchesStatus(filter, r[i])
    ensures forall i :: 0 <= i < |jobs| && MatchesSearch(lower, query, jobs[i]) && MatchesStatus(filter, jobs[i]) ==>
      jobs[i] in r
  {
    Seqs.Filter(JobMatches(lower, query, filter), jobs)
  }

  /**
   * The filter result is the order-preserving subsequence of the list made of exactly the
   * matching jobs: every copy of a matching job is kept and no copy of another one.
   */
  lemma FilteredJobsExactly(jobs: seq<Job>, lower: char -> char, query: string, filter: StatusFilter, job: Job)
    ensures Seqs.IsSubsequence(FilteredJobs(jobs, lower, query, filter), jobs)
    ensures multiset(FilteredJobs(jobs, lower, query, filter))[job] ==
      if MatchesSearch(lower, query, job) && MatchesStatus(filter, job) then multiset(jobs)[job] else 0
  {
    Seqs.FilterIsSubsequence(JobMatches(lower, query, filter), jobs);
    Seqs.FilterMultiplicity(JobMatches(lower, query, filter), jobs, job);
  }

  /** Matching through `Includes` is substring matching, case-folded for code and name only. */
  lemma MatchesSearchBySubstring(lower: char -> char, query: string, job: Job)
    ensures MatchesSearch(lower, query, job) <==>
      (exists i :: OccursAt(Lowered(lower, job.code), Lowered(lower, query), i)) ||
      (exists i :: OccursAt(Lowered(lower, job.customer.name), Lowered(lower, query), i)) ||
      (exists i :: OccursAt(job.customer.phone, query, i))
  {
    IncludesIffOccurs(Lowered(lower, job.code), Lowered(lower, query));
    IncludesIffOccurs(Lowered(lower, job.customer.name), Lowered(lower, query));
    IncludesIffOccurs(job.customer.phone, query);
    assert MatchesSearch(lower, query, job) <==>
      Includes(Lowered(lower, job.code), Lowered(lower, query)) ||
      Includes(Lowered(lower, job.customer.name), Lowered(lower, query)) ||
      Includes(job.customer.phone, query);
  }

  /** An empty query matches every job. */
  lemma EmptyQueryMatches(lower: char -> char, job: Job)
    ensures MatchesSearch(lower, "", job)
  {
    assert Lowered(lower, "") == "";
    EmptyIncluded(Lowered(lower, job.code));
  }

  /** With an empty query and the `'all'` filter, the list is shown unchanged. */
  lemma EmptyQueryAllIsIdentity(jobs: seq<Job>, lower: char -> char)
    ensures FilteredJobs(jobs, lower, "", All) == jobs
  {
    forall i | 0 <= i < |jobs| ensures JobMatches(lower, "", All)(jobs[i]) {
      EmptyQueryMatches(lower, jobs[i]);
    }
    Seqs.FilterKeepsAll(JobMatches(lower, "", All), jobs);
  }

  /** With the `'all'` filter only the search decides. */
  lemma AllFilterIsSearchOnly(jobs: seq<Job>, lower: char -> char, query: string)
    ensures forall i :: 0 <= i < |jobs| && MatchesSearch(lower, query, jobs[i]) ==>
      jobs[i] in FilteredJobs(jobs, lower, query, All)
  {
  }

  /** Applying the same search and filter to an already filtered list changes nothing. */
  lemma FilteredJobsIdempotent(jobs: seq<Job>, lower: char -> char, query: string, filter: StatusFilter)
    ensures FilteredJobs(FilteredJobs(jobs, lower, query, filter), lower, query, filter) ==
      FilteredJobs(jobs, lower, query, filter)
  {
    Seqs.FilterIdempotent(JobMatches(lower, query, filter), jobs);
  }

  /** `statusOptions`: `'all'` followed by every status but `cancelled`. */
  function StatusOptions(): (r: seq<StatusFilter>)
    ensures |r| == 8 && r[0] == All
    ensures Only(Cancelled) !in r
  {
    [All, Only(Pending), Only(Measuring), Only(Quoting), Only(Approved),
     Only(InProgress), Only(PendingFollow), Only(Completed)]
  }

  /** Every status but `cancelled` can be selected on its own. */
  lemma StatusOptionsOfferAllButCancelled(s: JobStatus)
    ensures Only(s) in StatusOptions() <==> s != Cancelled
  {
    var r := StatusOptions();
    match s
    case Pending => assert r[1] == Only(s);
    case Measuring => assert r[2] == Only(s);
    case Quoting => assert r[3] == Only(s);
    case Approved => assert r[4] == Only(s);
    case InProgress => assert r[5] == Only(s);
    case PendingFollow => assert r[6] == Only(s);
    case Completed => assert r[7] == Only(s);
    case Cancelled =>
  }

  /** A cancelled job is listed only under the `'all'` option: no option selects it by status. */
  lemma CancelledOnlyUnderAll(filter: StatusFilter, job: Job)
    requires filter in StatusOptions()
    requires job.status == Cancelled
    ensures MatchesStatus(filter, job) <==> filter == All
  {
  }

  /** The badge colours of the lookup table. */
  datatype BadgeTone = Gray | Yellow | Blue | Green | Red

  /** The badge table: one entry per job status. */
  function BadgeOf(s: JobStatus): BadgeTone {
    match s
    case Pending => Gray
    case Measuring => Yellow
    case Quoting => Blue
    case Approved => Green
    case InProgress => Blue
    case PendingFollow => Red
    case Completed => Green
    case Cancelled => Gray
  }

  /** `getStatusBadge`: look the status string up, falling back to the `pending` entry. */
  function StatusBadge(status: string): BadgeTone {
    match ParseJobStatus(status)
    case Some(s) => BadgeOf(s)
    case None => BadgeOf(Pending)
  }

  /** The lookup is total on job statuses: each finds its own entry, never the fallback. */
  lemma StatusBadgeOfEveryStatus(s: JobStatus)
    ensures StatusBadge(JobStatusName(s)) == BadgeOf(s)
  {
    JobStatusNameRoundTrip(s);
  }

  /** A string that names no job status gets the `pending` badge. */
  lemma StatusBadgeFallback(status: string)
    requires forall s: JobStatus :: JobStatusName(s) != status
    ensures StatusBadge(status) == BadgeOf(Pending)
  {
  }
}
