/**
 * The dashboard (src/pages/Dashboard.tsx): the per-status buckets and the "today" bucket
 * behind the summary cards, the revenue estimate, the recent-jobs slice and the rule that
 * shows the notification panel. Every value is computed from the job list; the date of
 * "today" is a parameter.
 */
module Dashboard {
  import opened Wrappers
  import opened Types
  import Seqs
  import App

  function StatusIs(s: JobStatus): Job -> bool {
    (job: Job) => job.status == s
  }

  /** `jobs.filter(job => job.status === s)`. */
  function Bucket(jobs: seq<Job>, s: JobStatus): (r: seq<Job>)
    ensures |r| <= |jobs|
    ensures forall i :: 0 <= i < |r| ==> r[i] in jobs && r[i].status == s
    ensures forall i :: 0 <= i < |jobs| && jobs[i].status == s ==> jobs[i] in r
  {
    Seqs.Filter(StatusIs(s), jobs)
  }

  /**
   * A bucket is the order-preserving subsequence of the list holding every copy of each job
   * of its status and nothing else.
   */
  lemma BucketExactly(jobs: seq<Job>, s: JobStatus, job: Job)
    ensures Seqs.IsSubsequence(Bucket(jobs, s), jobs)
    ensures multiset(Bucket(jobs, s))[job] == if job.status == s then multiset(jobs)[job] else 0
  {
    Seqs.FilterIsSubsequence(StatusIs(s), jobs);
    Seqs.FilterMultiplicity(StatusIs(s), jobs, job);
  }

  /** Buckets of two different statuses share no job. */
  lemma BucketsDisjoint(jobs: seq<Job>, s: JobStatus, t: JobStatus, job: Job)
    requires s != t
    ensures !(job in Bucket(jobs, s) && job in Bucket(jobs, t))
  {
  }

  /** The eight status buckets together account for every job once. */
  lemma {:induction false} BucketSizesSum(jobs: seq<Job>)
    ensures |Bucket(jobs, Pending)| + |Bucket(jobs, Measuring)| + |Bucket(jobs, Quoting)| +
      |Bucket(jobs, Approved)| + |Bucket(jobs, InProgress)| + |Bucket(jobs, PendingFollow)| +
      |Bucket(jobs, Completed)| + |Bucket(jobs, Cancelled)| == |jobs|
  {
    if jobs != [] {
      BucketSizesSum(jobs[1..]);
    }
  }

  /** The `todayJobs` test: in progress, or to be measured and created on `today`. */
  predicate IsToday(today: string, job: Job) {
    job.status == InProgress || (job.status == Measuring && job.createdAt == today)
  }

  function TodayTest(today: string): Job -> bool {
    (job: Job) => IsToday(today, job)
  }

  /** `todayJobs`, for the date string `today` (`new Date().toISOString().split('T')[0]`). */
  function TodayJobs(jobs: seq<Job>, today: string): (r: seq<Job>)
    ensures forall i :: 0 <= i < |r| ==>
      r[i] in jobs && (r[i].status == InProgress || (r[i].status == Measuring && r[i].createdAt == today))
    ensures forall i :: 0 <= i < |jobs| && IsToday(today, jobs[i]) ==> jobs[i] in r
  {
    Seqs.Filter(TodayTest(today), jobs)
  }

  /** Every in-progress job is on today's card, in the same relative order. */
  lemma InProgressAlwaysToday(jobs: seq<Job>, today: string)
    ensures Seqs.IsSubsequence(Bucket(jobs, InProgress), TodayJobs(jobs, today))
  {
    Seqs.FilterStrongerIsSubsequence(StatusIs(InProgress), TodayTest(today), jobs);
  }

  function MeasuringOn(today: string): Job -> bool {
    (job: Job) => job.status == Measuring && job.createdAt == today
  }

  /**
   * Today's card is exactly the in-progress bucket together with the measuring jobs created
   * today: the counts add up, copy for copy.
   */
  lemma TodayIsInProgressPlusMeasuringToday(jobs: seq<Job>, today: string)
    ensures multiset(TodayJobs(jobs, today)) ==
      multiset(Bucket(jobs, InProgress)) + multiset(Seqs.Filter(MeasuringOn(today), jobs))
    ensures |TodayJobs(jobs, today)| == |Bucket(jobs, InProgress)| + |Seqs.Filter(MeasuringOn(today), jobs)|
  {
    forall job
      ensures multiset(TodayJobs(jobs, today))[job] ==
        (multiset(Bucket(jobs, InProgress)) + multiset(Seqs.Filter(MeasuringOn(today), jobs)))[job]
    {
      Seqs.FilterMultiplicity(TodayTest(today), jobs, job);
      Seqs.FilterMultiplicity(StatusIs(InProgress), jobs, job);
      Seqs.FilterMultiplicity(MeasuringOn(today), jobs, job);
    }
    assert multiset(TodayJobs(jobs, today)) ==
      multiset(Bucket(jobs, InProgress)) + multiset(Seqs.Filter(MeasuringOn(today), jobs));
    assert |multiset(TodayJobs(jobs, today))| == |TodayJobs(jobs, today)|;
  }

  /** The revenue test: completed or in progress. */
  predicate CountsAsRevenue(job: Job) {
    job.status == Completed || job.status == InProgress
  }

  /** `job.totalAmount || 0`. */
  function AmountOrZero(job: Job): int {
    job.totalAmount.GetOr(0)
  }

  /** `totalRevenue`: the amounts of the counted jobs, a missing amount counting 0. */
  function TotalRevenue(jobs: seq<Job>): int {
    Seqs.SumOf(AmountOrZero, Seqs.Filter(CountsAsRevenue, jobs))
  }

  /** Revenue over two lists is the sum of their revenues. */
  lemma RevenueOfConcat(a: seq<Job>, b: seq<Job>)
    ensures TotalRevenue(a + b) == TotalRevenue(a) + TotalRevenue(b)
  {
    Seqs.FilterConcat(CountsAsRevenue, a, b);
    Seqs.SumOfConcat(AmountOrZero, Seqs.Filter(CountsAsRevenue, a), Seqs.Filter(CountsAsRevenue, b));
  }

  /** Adding a job of any other status, whatever its amount, leaves the revenue unchanged. */
  lemma OtherStatusAddsNoRevenue(jobs: seq<Job>, job: Job)
    requires job.status != Completed && job.status != InProgress
    ensures TotalRevenue(jobs + [job]) == TotalRevenue(jobs)
    ensures TotalRevenue([job] + jobs) == TotalRevenue(jobs)
  {
    RevenueOfConcat(jobs, [job]);
    RevenueOfConcat([job], jobs);
    assert Seqs.Filter(CountsAsRevenue, [job]) == [];
  }

  /** A counted job adds its amount, or nothing when the amount is missing. */
  lemma CountedJobAddsItsAmount(jobs: seq<Job>, job: Job)
    requires job.status == Completed || job.status == InProgress
    ensures TotalRevenue(jobs + [job]) == TotalRevenue(jobs) + (if job.totalAmount.Some? then job.totalAmount.value else 0)
  {
    RevenueOfConcat(jobs, [job]);
    assert [job][1..] == [];
    assert Seqs.Filter(CountsAsRevenue, [job]) == [job];
    assert Seqs.SumOf(AmountOrZero, [job]) == AmountOrZero(job);
  }

  /** Revenue is the completed bucket's amounts plus the in-progress bucket's amounts. */
  lemma RevenueIsTwoBuckets(jobs: seq<Job>)
    ensures TotalRevenue(jobs) ==
      Seqs.SumOf(AmountOrZero, Bucket(jobs, Completed)) + Seqs.SumOf(AmountOrZero, Bucket(jobs, InProgress))
  {
    Seqs.SumOfDisjointUnion(AmountOrZero, StatusIs(Completed), StatusIs(InProgress), CountsAsRevenue, jobs);
  }

  /** `mockJobs.slice(0, 5)`: the first five jobs, or all of them when there are fewer. */
  function Recent(jobs: seq<Job>): (r: seq<Job>)
    ensures |r| == if |jobs| < 5 then |jobs| else 5
    ensures forall i :: 0 <= i < |r| ==> r[i] == jobs[i]
  {
    if |jobs| < 5 then jobs else jobs[..5]
  }

  /** One summary card: its title, the count it shows and the jobs it stands for. */
  datatype Card = Card(title: string, count: nat, jobs: seq<Job>)

  /** The five summary cards, in display order. */
  function Cards(jobs: seq<Job>, today: string): (r: seq<Card>)
    ensures |r| == 5
    ensures forall i :: 0 <= i < 5 ==> r[i].count == |r[i].jobs|
  {
    var todayJobs := TodayJobs(jobs, today);
    var measuring := Bucket(jobs, Measuring);
    var quoting := Bucket(jobs, Quoting);
    var inProgress := Bucket(jobs, InProgress);
    var pendingFollow := Bucket(jobs, PendingFollow);
    [ Card("งานวันนี้", |todayJobs|, todayJobs),
      Card("งานต้องวัด", |measuring|, measuring),
      Card("งานต้องออกใบเสนอราคา", |quoting|, quoting),
      Card("งานกำลังทำ", |inProgress|, inProgress),
      Card("งานค้างติดตาม", |pendingFollow|, pendingFollow) ]
  }

  /** The cards stand for today's jobs and the measuring, quoting, in-progress and pending-follow buckets. */
  lemma CardsShowBuckets(jobs: seq<Job>, today: string)
    ensures Cards(jobs, today)[0].jobs == TodayJobs(jobs, today)
    ensures Cards(jobs, today)[1].jobs == Bucket(jobs, Measuring)
    ensures Cards(jobs, today)[2].jobs == Bucket(jobs, Quoting)
    ensures Cards(jobs, today)[3].jobs == Bucket(jobs, InProgress)
    ensures Cards(jobs, today)[4].jobs == Bucket(jobs, PendingFollow)
  {
  }

  /** The four status cards never count more than the whole list between them. */
  lemma StatusCardsWithinList(jobs: seq<Job>, today: string)
    ensures Cards(jobs, today)[1].count + Cards(jobs, today)[2].count +
      Cards(jobs, today)[3].count + Cards(jobs, today)[4].count <= |jobs|
  {
    BucketSizesSum(jobs);
  }

  /** `userRole === 'admin'`: whether the notification panel is shown. */
  predicate ShowsNotifications(userRole: Option<App.Role>) {
    userRole == Some(App.Admin)
  }

  /**
   * Of the users who reach the dashboard (any signed-in role), only an admin sees the
   * notification panel; a foreman or an owner does not.
   */
  lemma NotificationsOnlyForAdmin(userRole: Option<App.Role>)
    requires App.Resolve(App.Home, userRole).InLayout?
    ensures ShowsNotifications(userRole) <==> App.Resolve(App.Home, userRole).role == App.Admin
    ensures userRole == Some(App.Foreman) || userRole == Some(App.Owner) ==> !ShowsNotifications(userRole)
  {
  }

  function MockJob(id: string, code: string, name: string, phone: string, status: JobStatus,
                   createdAt: string, amount: int): Job {
    Job(id, code, Customer(id, name, phone, None), status, createdAt, None, None, None, Some(amount), None)
  }

  /** The dashboard's mock list. */
  function MockJobs(): seq<Job> {
    [ MockJob("1", "JOB-2024-001", "คุณสมชาย ใจดี", "081-234-5678", Measuring, "2024-01-15", 150000),
      MockJob("2", "JOB-2024-002", "คุณสุดา รักงาน", "082-345-6789", Quoting, "2024-01-16", 200000),
      MockJob("3", "JOB-2024-003", "คุณประเสริฐ ดีงาม", "083-456-7890", InProgress, "2024-01-10", 300000),
      MockJob("4", "JOB-2024-004", "คุณมาลี สวยงาม", "084-567-8901", PendingFollow, "2024-01-05", 180000) ]
  }

  /** A status held by exactly one job gives a bucket of that job alone. */
  lemma BucketOfOne(jobs: seq<Job>, s: JobStatus, k: nat)
    requires k < |jobs| && jobs[k].status == s
    requires forall i :: 0 <= i < |jobs| && i != k ==> jobs[i].status != s
    ensures Bucket(jobs, s) == [jobs[k]]
  {
    Seqs.FilterSingleMatch(StatusIs(s), jobs, k);
  }

  /** A status no job holds gives an empty bucket. */
  lemma BucketOfNone(jobs: seq<Job>, s: JobStatus)
    requires forall i :: 0 <= i < |jobs| ==> jobs[i].status != s
    ensures Bucket(jobs, s) == []
  {
    Seqs.FilterKeepsNone(StatusIs(s), jobs);
  }

  /** The statuses of the mock list, position by position. */
  predicate HasMockProfile(js: seq<Job>) {
    |js| == 4 && js[0].status == Measuring && js[1].status == Quoting &&
    js[2].status == InProgress && js[3].status == PendingFollow
  }

  /** A list with that profile has one job in each of the four status buckets and none completed. */
  lemma MockProfileBuckets(js: seq<Job>)
    requires HasMockProfile(js)
    ensures Bucket(js, Measuring) == [js[0]] && Bucket(js, Quoting) == [js[1]]
    ensures Bucket(js, InProgress) == [js[2]] && Bucket(js, PendingFollow) == [js[3]]
    ensures Bucket(js, Completed) == []
  {
    BucketOfOne(js, Measuring, 0);
    BucketOfOne(js, Quoting, 1);
    BucketOfOne(js, InProgress, 2);
    BucketOfOne(js, PendingFollow, 3);
    BucketOfNone(js, Completed);
  }

  /** Its revenue is the in-progress job's amount alone. */
  lemma MockProfileRevenue(js: seq<Job>)
    requires HasMockProfile(js)
    ensures TotalRevenue(js) == AmountOrZero(js[2])
  {
    RevenueIsTwoBuckets(js);
    MockProfileBuckets(js);
    assert [js[2]][1..] == [];
  }

  /** On the mock list only job 3 is in progress and nothing is completed: revenue 300000. */
  lemma MockRevenue()
    ensures TotalRevenue(MockJobs()) == 300000
  {
    MockProfileRevenue(MockJobs());
  }

  /** The measuring job 1 joins today's card only on its creation date, 2024-01-15. */
  lemma MockToday(today: string)
    ensures TodayJobs(MockJobs(), today) ==
      if today == "2024-01-15" then [MockJobs()[0], MockJobs()[2]] else [MockJobs()[2]]
  {
    MockProfileToday(MockJobs(), today);
  }

  /** With that profile, today's card is job 3, preceded by job 1 when job 1 was created today. */
  lemma MockProfileToday(js: seq<Job>, today: string)
    requires HasMockProfile(js)
    ensures TodayJobs(js, today) == if js[0].createdAt == today then [js[0], js[2]] else [js[2]]
  {
    var p, rest := TodayTest(today), js[1..];
    assert rest[0] == js[1] && rest[1] == js[2] && rest[2] == js[3];
    assert !p(rest[0]) && p(rest[1]) && !p(rest[2]);
    Seqs.FilterSingleMatch(p, rest, 1);
    assert Seqs.Filter(p, js) == (if p(js[0]) then [js[0]] else []) + [js[2]];
    assert p(js[0]) <==> js[0].createdAt == today;
  }

  /** Each status bucket of the mock list holds one job. */
  lemma MockBuckets()
    ensures Bucket(MockJobs(), Measuring) == [MockJobs()[0]]
    ensures Bucket(MockJobs(), Quoting) == [MockJobs()[1]]
    ensures Bucket(MockJobs(), InProgress) == [MockJobs()[2]]
    ensures Bucket(MockJobs(), PendingFollow) == [MockJobs()[3]]
  {
    MockProfileBuckets(MockJobs());
  }

  /** All four mock jobs are recent. */
  lemma MockRecent()
    ensures Recent(MockJobs()) == MockJobs()
  {
  }

  /** So each status card counts one job. */
  lemma MockCards(today: string)
    ensures Cards(MockJobs(), today)[1].count == 1 && Cards(MockJobs(), today)[2].count == 1
    ensures Cards(MockJobs(), today)[3].count == 1 && Cards(MockJobs(), today)[4].count == 1
  {
    CardsShowBuckets(MockJobs(), today);
    MockBuckets();
  }
}
