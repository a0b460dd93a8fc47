/**
 * The three aggregations behind the dashboard charts: the status pie, the
 * monthly trend and the amount per purpose. All three read the full
 * application list and change nothing.
 */
module Charts {
  import opened Loans
  import opened Seqs
  import opened Text

  // ---------------------------------------------------------------------
  // Status distribution (getStatusData)
  // ---------------------------------------------------------------------

  /** The statuses the pie counts, in display order. CLOSED is not one of them. */
  const ChartStatuses: seq<string> := ["PENDING", "APPROVED", "REJECTED", "DISBURSED"]
  const ChartLabels: seq<string> := ["Pending", "Approved", "Rejected", "Disbursed"]
  const ChartColors: seq<PaletteColor> := [WarningMain, SuccessMain, ErrorMain, PrimaryMain]

  /** The accumulator of the `reduce`, seeded with four zero counters. */
  datatype StatusCounts = StatusCounts(pending: nat, approved: nat, rejected: nat, disbursed: nat)

  /** One step of the `reduce`: bump the counter the status names, if it names one. */
  function Tally(acc: StatusCounts, app: Application): StatusCounts
  {
    if app.status == "PENDING" then acc.(pending := acc.pending + 1)
    else if app.status == "APPROVED" then acc.(approved := acc.approved + 1)
    else if app.status == "REJECTED" then acc.(rejected := acc.rejected + 1)
    else if app.status == "DISBURSED" then acc.(disbursed := acc.disbursed + 1)
    else acc
  }

  /** The `reduce` over the applications, left to right. */
  function CountStatuses(apps: seq<Application>): StatusCounts
    decreases |apps|
  {
    if apps == [] then StatusCounts(0, 0, 0, 0)
    else Tally(CountStatuses(apps[..|apps| - 1]), apps[|apps| - 1])
  }

  /** The counter that belongs to `ChartStatuses[i]`. */
  function CounterAt(c: StatusCounts, i: nat): nat
    requires i < 4
  {
    if i == 0 then c.pending else if i == 1 then c.approved
    else if i == 2 then c.rejected else c.disbursed
  }

  /** The statuses of `apps`, in order. */
  function StatusesOf(apps: seq<Application>): seq<string>
  {
    seq(|apps|, i requires 0 <= i < |apps| => apps[i].status)
  }

  /** Reference count: how many applications carry exactly status `s`. */
  function Occurrences(apps: seq<Application>, s: string): nat
  {
    multiset(StatusesOf(apps))[s]
  }

  /** The fold counts, for each of the four chart statuses, exactly the applications with that status. */
  lemma {:induction false} CountStatusesCorrect(apps: seq<Application>)
    ensures forall i :: 0 <= i < 4 ==> CounterAt(CountStatuses(apps), i) == Occurrences(apps, ChartStatuses[i])
    decreases |apps|
  {
    if apps != [] {
      var prefix := apps[..|apps| - 1];
      CountStatusesCorrect(prefix);
      assert StatusesOf(apps) == StatusesOf(prefix) + [apps[|apps| - 1].status];
    } else {
      assert StatusesOf(apps) == [];
    }
  }

  datatype StatusSlice = StatusSlice(name: string, value: nat, color: PaletteColor)

  /** The slice of the i-th chart status, valued by the reference count. */
  function SliceAt(apps: seq<Application>, i: nat): StatusSlice
    requires i < 4
  {
    StatusSlice(ChartLabels[i], Occurrences(apps, ChartStatuses[i]), ChartColors[i])
  }

  /** All four slices in display order, zero-valued ones included. */
  function AllSlices(apps: seq<Application>): seq<StatusSlice>
  {
    [SliceAt(apps, 0), SliceAt(apps, 1), SliceAt(apps, 2), SliceAt(apps, 3)]
  }

  /** `.filter((item) => item.value > 0)`. */
  function PositiveSlices(s: seq<StatusSlice>): (r: seq<StatusSlice>)
    ensures IsSubsequence(r, s)
    ensures forall e :: e in r <==> e in s && e.value > 0
  {
    if s == [] then []
    else if s[0].value > 0 then [s[0]] + PositiveSlices(s[1..])
    else PositiveSlices(s[1..])
  }

  /** The filter keeps every positive entry as often as it occurs, and no other. */
  lemma {:induction false} PositiveSlicesCounts(s: seq<StatusSlice>, e: StatusSlice)
    ensures multiset(PositiveSlices(s))[e] == (if e.value > 0 then multiset(s)[e] else 0)
  {
    if s != [] {
      PositiveSlicesCounts(s[1..], e);
      assert s == [s[0]] + s[1..];
    }
  }

  /**
   * getStatusData: the four slices in fixed order, each valued by how many
   * applications have its status, with the zero-valued ones dropped.
   */
  function StatusData(apps: seq<Application>): (r: seq<StatusSlice>)
    ensures r == PositiveSlices(AllSlices(apps))
    ensures IsSubsequence(r, AllSlices(apps))
    ensures forall i :: 0 <= i < 4 ==> (SliceAt(apps, i) in r <==> Occurrences(apps, ChartStatuses[i]) > 0)
    ensures forall e :: e in r ==> e.value > 0
  {
    var c := CountStatuses(apps);
    CountStatusesCorrect(apps);
    assert CounterAt(c, 0) == c.pending && CounterAt(c, 1) == c.approved;
    assert CounterAt(c, 2) == c.rejected && CounterAt(c, 3) == c.disbursed;
    var all := [StatusSlice("Pending", c.pending, WarningMain),
                StatusSlice("Approved", c.approved, SuccessMain),
                StatusSlice("Rejected", c.rejected, ErrorMain),
                StatusSlice("Disbursed", c.disbursed, PrimaryMain)];
    assert all == AllSlices(apps);
    PositiveSlices(all)
  }

  function SumValues(s: seq<StatusSlice>): nat
  {
    if s == [] then 0 else s[0].value + SumValues(s[1..])
  }

  /** Reference count: how many applications have one of the four chart statuses. */
  function ChartedCount(apps: seq<Application>): nat
  {
    if apps == [] then 0
    else (if apps[0].status in ChartStatuses then 1 else 0) + ChartedCount(apps[1..])
  }

  lemma {:induction false} PositiveSlicesKeepSum(s: seq<StatusSlice>)
    ensures SumValues(PositiveSlices(s)) == SumValues(s)
  {
    if s != [] {
      PositiveSlicesKeepSum(s[1..]);
    }
  }

  lemma {:induction false} ChartedCountIsOccurrenceSum(apps: seq<Application>)
    ensures ChartedCount(apps) == Occurrences(apps, "PENDING") + Occurrences(apps, "APPROVED")
                                 + Occurrences(apps, "REJECTED") + Occurrences(apps, "DISBURSED")
  {
    if apps == [] {
      assert StatusesOf(apps) == [];
    } else {
      ChartedCountIsOccurrenceSum(apps[1..]);
      assert StatusesOf(apps) == [apps[0].status] + StatusesOf(apps[1..]);
    }
  }

  /** The slice values add up to the applications whose status is one of the four; the rest are not counted. */
  lemma StatusDataSum(apps: seq<Application>)
    ensures SumValues(StatusData(apps)) == ChartedCount(apps)
  {
    var all := AllSlices(apps);
    PositiveSlicesKeepSum(all);
    assert SumValues(all) == all[0].value + all[1].value + all[2].value + all[3].value by {
      var s1, s2, s3 := [all[1], all[2], all[3]], [all[2], all[3]], [all[3]];
      assert all[1..] == s1 && s1[1..] == s2 && s2[1..] == s3 && s3[1..] == [];
      assert SumValues(s3) == all[3].value + SumValues([]);
      assert SumValues(s2) == all[2].value + SumValues(s3);
      assert SumValues(s1) == all[1].value + SumValues(s2);
    }
    ChartedCountIsOccurrenceSum(apps);
  }

  /** An application with a status outside the four (CLOSED, say) changes no slice. */
  lemma UnchartedStatusIgnored(apps: seq<Application>, app: Application)
    requires app.status !in ChartStatuses
    ensures StatusData(apps + [app]) == StatusData(apps)
  {
    assert (apps + [app])[..|apps|] == apps;
    assert CountStatuses(apps + [app]) == CountStatuses(apps);
  }

  // ---------------------------------------------------------------------
  // Monthly trend (getMonthlyData)
  // ---------------------------------------------------------------------

  datatype MonthBucket = MonthBucket(month: string, applications: nat, approved: nat)

  /** The statuses the trend's `approved` series counts. */
  predicate CountsAsApproved(status: string)
  {
    status == "APPROVED" || status == "DISBURSED"
  }

  /** Reference count: the applications of month `k`. */
  function MonthTotal(apps: seq<Application>, k: string): nat
    decreases |apps|
  {
    if apps == [] then 0
    else MonthTotal(apps[..|apps| - 1], k) + (if apps[|apps| - 1].monthKey == k then 1 else 0)
  }

  /** Reference count: the APPROVED or DISBURSED applications of month `k`. */
  function MonthApproved(apps: seq<Application>, k: string): nat
    decreases |apps|
  {
    if apps == [] then 0
    else
      var last := apps[|apps| - 1];
      MonthApproved(apps[..|apps| - 1], k) + (if last.monthKey == k && CountsAsApproved(last.status) then 1 else 0)
  }

  lemma {:induction false} ApprovedAtMostTotal(apps: seq<Application>, k: string)
    ensures MonthApproved(apps, k) <= MonthTotal(apps, k)
    decreases |apps|
  {
    if apps != [] {
      ApprovedAtMostTotal(apps[..|apps| - 1], k);
    }
  }

  lemma {:induction false} AbsentMonthCountsNothing(apps: seq<Application>, k: string)
    requires forall a :: a in apps ==> a.monthKey != k
    ensures MonthTotal(apps, k) == 0 && MonthApproved(apps, k) == 0
    decreases |apps|
  {
    if apps != [] {
      var prefix := apps[..|apps| - 1];
      assert forall a :: a in prefix ==> a in apps;
      AbsentMonthCountsNothing(prefix, k);
    }
  }

  function KeysOf(apps: seq<Application>): set<string>
  {
    set a | a in apps :: a.monthKey
  }

  function MonthsOf(bs: seq<MonthBucket>): set<string>
  {
    set b | b in bs :: b.month
  }

  predicate StrictlyAscending(bs: seq<MonthBucket>)
  {
    forall i, j :: 0 <= i < j < |bs| ==> StrLess(bs[i].month, bs[j].month)
  }

  predicate DistinctMonths(bs: seq<MonthBucket>)
  {
    forall i, j :: 0 <= i < j < |bs| ==> bs[i].month != bs[j].month
  }

  /** A bucket below every bucket of an ascending list can go in front of it. */
  lemma ConsAscending(h: MonthBucket, t: seq<MonthBucket>)
    requires StrictlyAscending(t)
    requires forall x :: x in t ==> StrLess(h.month, x.month)
    ensures StrictlyAscending([h] + t)
  {
    var r := [h] + t;
    forall i, j | 0 <= i < j < |r|
      ensures StrLess(r[i].month, r[j].month)
    {
      if i == 0 {
        assert r[j] == t[j - 1];
      } else {
        assert r[i] == t[i - 1] && r[j] == t[j - 1];
      }
    }
  }

  /** Inserts a bucket with a new month into an ascending list. */
  function InsertByMonth(sorted: seq<MonthBucket>, b: MonthBucket): (r: seq<MonthBucket>)
    requires StrictlyAscending(sorted) && b.month !in MonthsOf(sorted)
    ensures StrictlyAscending(r)
    ensures multiset(r) == multiset(sorted) + multiset{b}
  {
    if sorted == [] then [b]
    else if StrLess(b.month, sorted[0].month) then
      BelowHeadBelowAll(b, sorted);
      ConsAscending(b, sorted);
      [b] + sorted
    else
      var rest := sorted[1..];
      assert sorted == [sorted[0]] + rest;
      assert sorted[0] in sorted;
      StrLessTotal(b.month, sorted[0].month);
      assert MonthsOf(rest) <= MonthsOf(sorted);
      var tail := InsertByMonth(rest, b);
      HeadBelowInserted(sorted, b, tail);
      ConsAscending(sorted[0], tail);
      [sorted[0]] + tail
  }

  lemma BelowHeadBelowAll(b: MonthBucket, sorted: seq<MonthBucket>)
    requires StrictlyAscending(sorted) && sorted != [] && StrLess(b.month, sorted[0].month)
    ensures forall x :: x in sorted ==> StrLess(b.month, x.month)
  {
    forall j | 0 < j < |sorted|
      ensures StrLess(b.month, sorted[j].month)
    {
      StrLessTransitive(b.month, sorted[0].month, sorted[j].month);
    }
  }

  lemma HeadBelowInserted(sorted: seq<MonthBucket>, b: MonthBucket, tail: seq<MonthBucket>)
    requires StrictlyAscending(sorted) && sorted != [] && StrLess(sorted[0].month, b.month)
    requires multiset(tail) == multiset(sorted[1..]) + multiset{b}
    ensures forall x :: x in tail ==> StrLess(sorted[0].month, x.month)
  {
    forall x | x in tail
      ensures StrLess(sorted[0].month, x.month)
    {
      assert x in multiset(tail);
      if x != b {
        assert x in multiset(sorted[1..]);
        var k :| 0 <= k < |sorted[1..]| && sorted[1..][k] == x;
        assert sorted[k + 1] == x;
      }
    }
  }

  /** The `.sort((a, b) => a.month.localeCompare(b.month))` step, as an insertion sort. */
  function SortByMonth(bs: seq<MonthBucket>): (r: seq<MonthBucket>)
    requires DistinctMonths(bs)
    ensures StrictlyAscending(r)
    ensures multiset(r) == multiset(bs)
  {
    if bs == [] then []
    else
      var rest := bs[1..];
      var sortedRest := SortByMonth(rest);
      assert bs[0].month !in MonthsOf(sortedRest) by {
        forall x | x in sortedRest
          ensures x.month != bs[0].month
        {
          assert x in multiset(rest);
          var k :| 0 <= k < |rest| && rest[k] == x;
          assert bs[k + 1] == x;
        }
      }
      assert bs == [bs[0]] + rest;
      InsertByMonth(sortedRest, bs[0])
  }

  function TotalApplications(bs: seq<MonthBucket>): nat
  {
    if bs == [] then 0 else bs[0].applications + TotalApplications(bs[1..])
  }

  /**
   * What the monthly trend is: one bucket per month that occurs, in ascending
   * key order, each counting that month's applications and, of those, the
   * APPROVED or DISBURSED ones.
   */
  ghost predicate MonthlySpec(apps: seq<Application>, r: seq<MonthBucket>)
  {
    && StrictlyAscending(r)
    && MonthsOf(r) == KeysOf(apps)
    && forall j :: 0 <= j < |r| ==>
         r[j].applications == MonthTotal(apps, r[j].month) && r[j].approved == MonthApproved(apps, r[j].month)
  }

  /** The dictionary holds, per month seen in `done`, that month's two counts. */
  ghost predicate Tallied(done: seq<Application>, monthly: map<string, MonthBucket>)
  {
    && monthly.Keys == KeysOf(done)
    && forall k :: k in monthly ==>
         monthly[k] == MonthBucket(k, MonthTotal(done, k), MonthApproved(done, k))
  }

  /** The bucket after one more application of its month. */
  function Bump(b: MonthBucket, app: Application): MonthBucket
  {
    MonthBucket(b.month, b.applications + 1, if CountsAsApproved(app.status) then b.approved + 1 else b.approved)
  }

  /** One iteration of the `forEach` keeps the dictionary tallied. */
  lemma TallyStep(done: seq<Application>, app: Application, monthly: map<string, MonthBucket>)
    requires Tallied(done, monthly)
    ensures var key := app.monthKey;
            var b := if key in monthly then monthly[key] else MonthBucket(key, 0, 0);
            Tallied(done + [app], monthly[key := Bump(b, app)])
  {
    var key := app.monthKey;
    var next := done + [app];
    assert next[..|done|] == done;
    assert KeysOf(next) == KeysOf(done) + {key};
    if key !in monthly {
      AbsentMonthCountsNothing(done, key);
    }
  }

  /**
   * The `forEach` of getMonthlyData: creates a zero bucket the first time a
   * month is seen (remembering the key's insertion order, as `Object.values`
   * reports it), then counts the application and, when APPROVED or
   * DISBURSED, its approval.
   */
  method TallyByMonth(apps: seq<Application>) returns (monthly: map<string, MonthBucket>, order: seq<string>)
    ensures Tallied(apps, monthly)
    ensures Distinct(order) && forall k :: k in order <==> k in monthly
  {
    monthly := map[];
    order := [];
    var i := 0;
    while i < |apps|
      invariant 0 <= i <= |apps|
      invariant Tallied(apps[..i], monthly)
      invariant Distinct(order) && forall k :: k in order <==> k in monthly
    {
      var app := apps[i];
      var key := app.monthKey;
      ghost var before := monthly;
      ghost var start := if key in monthly then monthly[key] else MonthBucket(key, 0, 0);
      TallyStep(apps[..i], app, monthly);
      if key !in monthly {
        AppendKeepsDistinct(order, key);
        monthly := monthly[key := MonthBucket(key, 0, 0)];
        order := order + [key];
      }
      var bucket := monthly[key];
      bucket := bucket.(applications := bucket.applications + 1);
      if app.status == "APPROVED" || app.status == "DISBURSED" {
        bucket := bucket.(approved := bucket.approved + 1);
      }
      assert bucket == Bump(start, app);
      monthly := monthly[key := bucket];
      assert monthly == before[key := Bump(start, app)];
      assert apps[..i + 1] == apps[..i] + [app];
      i := i + 1;
    }
    assert apps[..i] == apps;
  }

  lemma AppendKeepsDistinct(order: seq<string>, key: string)
    requires Distinct(order) && key !in order
    ensures Distinct(order + [key])
  {
  }

  /**
   * getMonthlyData: tallies the applications by month, then sorts the
   * dictionary's buckets by key.
   */
  method MonthlyData(apps: seq<Application>) returns (r: seq<MonthBucket>)
    ensures MonthlySpec(apps, r)
    ensures TotalApplications(r) == |apps|
    ensures forall j :: 0 <= j < |r| ==> r[j].approved <= r[j].applications
  {
    var monthly, order := TallyByMonth(apps);
    var values := ValuesInOrder(monthly, order);
    r := SortByMonth(values);
    DictionaryBucketsMeetSpec(apps, monthly, order, r);
    forall j | 0 <= j < |r|
      ensures r[j].approved <= r[j].applications
    {
      ApprovedAtMostTotal(apps, r[j].month);
    }
    MonthlyConservation(apps, r);
  }

  /** `Object.values(monthly)`: the buckets in the order their keys were inserted. */
  function ValuesInOrder(monthly: map<string, MonthBucket>, order: seq<string>): (r: seq<MonthBucket>)
    requires forall k :: k in order ==> k in monthly
    requires forall k :: k in monthly ==> monthly[k].month == k
    requires Distinct(order)
    ensures |r| == |order| && DistinctMonths(r)
    ensures forall j :: 0 <= j < |r| ==> r[j] == monthly[order[j]]
  {
    seq(|order|, j requires 0 <= j < |order| => monthly[order[j]])
  }

  /** A sorted permutation of the dictionary's buckets is the monthly trend. */
  lemma DictionaryBucketsMeetSpec(apps: seq<Application>, monthly: map<string, MonthBucket>,
                                  order: seq<string>, r: seq<MonthBucket>)
    requires monthly.Keys == KeysOf(apps)
    requires Distinct(order) && forall k :: k in order <==> k in monthly
    requires forall k :: k in monthly ==>
               monthly[k] == MonthBucket(k, MonthTotal(apps, k), MonthApproved(apps, k))
    requires StrictlyAscending(r) && multiset(r) == multiset(ValuesInOrder(monthly, order))
    ensures MonthlySpec(apps, r)
  {
    var values := ValuesInOrder(monthly, order);
    forall b | b in r
      ensures b.month in KeysOf(apps)
      ensures b.applications == MonthTotal(apps, b.month) && b.approved == MonthApproved(apps, b.month)
    {
      assert b in multiset(values);
    }
    forall k | k in KeysOf(apps)
      ensures k in MonthsOf(r)
    {
      var j :| 0 <= j < |order| && order[j] == k;
      assert values[j] in multiset(r);
    }
  }

  /** Reference sum: the month totals over a list of keys. */
  function SumTotals(ks: seq<string>, apps: seq<Application>): nat
  {
    if ks == [] then 0 else MonthTotal(apps, ks[0]) + SumTotals(ks[1..], apps)
  }

  lemma {:induction false} SumTotalsSnoc(ks: seq<string>, apps: seq<Application>, app: Application)
    ensures SumTotals(ks, apps + [app]) == SumTotals(ks, apps) + multiset(ks)[app.monthKey]
  {
    assert (apps + [app])[..|apps|] == apps;
    if ks != [] {
      SumTotalsSnoc(ks[1..], apps, app);
      assert ks == [ks[0]] + ks[1..];
    }
  }

  lemma {:induction false} DistinctOccursOnce(ks: seq<string>, x: string)
    requires Distinct(ks) && x in ks
    ensures multiset(ks)[x] == 1
  {
    assert ks == [ks[0]] + ks[1..];
    if ks[0] == x {
      assert x !in ks[1..];
    } else {
      DistinctOccursOnce(ks[1..], x);
    }
  }

  /** Summing the month totals over distinct keys that cover every month gives back every application once. */
  lemma {:induction false} SumTotalsCovers(ks: seq<string>, apps: seq<Application>)
    requires Distinct(ks)
    requires forall a :: a in apps ==> a.monthKey in ks
    ensures SumTotals(ks, apps) == |apps|
    decreases |apps|
  {
    if apps == [] {
      ZeroTotals(ks);
    } else {
      var prefix := apps[..|apps| - 1];
      var last := apps[|apps| - 1];
      assert apps == prefix + [last];
      SumTotalsCovers(ks, prefix);
      SumTotalsSnoc(ks, prefix, last);
      DistinctOccursOnce(ks, last.monthKey);
    }
  }

  lemma {:induction false} ZeroTotals(ks: seq<string>)
    ensures SumTotals(ks, []) == 0
  {
    if ks != [] {
      ZeroTotals(ks[1..]);
    }
  }

  function MonthList(bs: seq<MonthBucket>): seq<string>
  {
    seq(|bs|, i requires 0 <= i < |bs| => bs[i].month)
  }

  lemma {:induction false} TotalIsSumOfMonthTotals(apps: seq<Application>, bs: seq<MonthBucket>)
    requires forall j :: 0 <= j < |bs| ==> bs[j].applications == MonthTotal(apps, bs[j].month)
    ensures TotalApplications(bs) == SumTotals(MonthList(bs), apps)
  {
    if bs != [] {
      TotalIsSumOfMonthTotals(apps, bs[1..]);
      assert MonthList(bs)[1..] == MonthList(bs[1..]);
    }
  }

  /** Conservation: every application lands in exactly one bucket. */
  lemma MonthlyConservation(apps: seq<Application>, r: seq<MonthBucket>)
    requires MonthlySpec(apps, r)
    ensures TotalApplications(r) == |apps|
  {
    var ks := MonthList(r);
    TotalIsSumOfMonthTotals(apps, r);
    forall i, j | 0 <= i < j < |ks|
      ensures ks[i] != ks[j]
    {
      StrLessIrreflexive(ks[i]);
    }
    forall a | a in apps
      ensures a.monthKey in ks
    {
      assert a.monthKey in MonthsOf(r);
      var b :| b in r && b.month == a.monthKey;
      var j :| 0 <= j < |r| && r[j] == b;
      assert ks[j] == b.month;
    }
    SumTotalsCovers(ks, apps);
  }

  // ---------------------------------------------------------------------
  // Amount by purpose (getPurposeData)
  // ---------------------------------------------------------------------

  datatype PurposeBar = PurposeBar(purpose: string, amount: int)

  /**
   * The property name `acc[app.purpose]` uses: a missing purpose becomes
   * "undefined" and a null one "null".
   */
  function PurposeKey(app: Application): string
  {
    match app.purpose
    case Present(p) => p
    case Missing => "undefined"
    case Null => "null"
  }

  function PurposesOf(bars: seq<PurposeBar>): set<string>
  {
    set b | b in bars :: b.purpose
  }

  predicate DistinctPurposes(bars: seq<PurposeBar>)
  {
    forall i, j :: 0 <= i < j < |bars| ==> bars[i].purpose != bars[j].purpose
  }

  /** The amount recorded under purpose `q` (summed, should `q` occur more than once). */
  function AmountIn(bars: seq<PurposeBar>, q: string): int
  {
    if bars == [] then 0
    else (if bars[0].purpose == q then bars[0].amount else 0) + AmountIn(bars[1..], q)
  }

  function TotalAmount(bars: seq<PurposeBar>): int
  {
    if bars == [] then 0 else bars[0].amount + TotalAmount(bars[1..])
  }

  /** How the purpose-list measures split over a first entry and the rest. */
  lemma PurposeCons(h: PurposeBar, t: seq<PurposeBar>)
    ensures PurposesOf([h] + t) == {h.purpose} + PurposesOf(t)
    ensures TotalAmount([h] + t) == h.amount + TotalAmount(t)
    ensures forall q :: AmountIn([h] + t, q) == (if h.purpose == q then h.amount else 0) + AmountIn(t, q)
    ensures DistinctPurposes([h] + t) <==> h.purpose !in PurposesOf(t) && DistinctPurposes(t)
  {
    var r := [h] + t;
    assert r[1..] == t;
    if h.purpose !in PurposesOf(t) && DistinctPurposes(t) {
      forall i, j | 0 <= i < j < |r|
        ensures r[i].purpose != r[j].purpose
      {
        assert r[j] == t[j - 1];
        if i > 0 {
          assert r[i] == t[i - 1];
        } else {
          assert t[j - 1] in t;
        }
      }
    }
    if DistinctPurposes(r) {
      forall x | x in t
        ensures x.purpose != h.purpose
      {
        var k :| 0 <= k < |t| && t[k] == x;
        assert r[k + 1] == x;
      }
    }
  }

  /** What adding `x` under purpose `p` does to a purpose list. */
  ghost predicate AddedUnder(acc: seq<PurposeBar>, p: string, x: int, r: seq<PurposeBar>)
  {
    && PurposesOf(r) == PurposesOf(acc) + {p}
    && (DistinctPurposes(acc) ==> DistinctPurposes(r))
    && TotalAmount(r) == TotalAmount(acc) + x
    && forall q :: AmountIn(r, q) == AmountIn(acc, q) + (if q == p then x else 0)
  }

  lemma AddedUnderEmpty(p: string, x: int)
    ensures AddedUnder([], p, x, [PurposeBar(p, x)])
  {
    PurposeCons(PurposeBar(p, x), []);
  }

  lemma AddedUnderHead(h: PurposeBar, rest: seq<PurposeBar>, x: int)
    ensures AddedUnder([h] + rest, h.purpose, x, [h.(amount := h.amount + x)] + rest)
  {
    PurposeCons(h, rest);
    PurposeCons(h.(amount := h.amount + x), rest);
  }

  lemma AddedUnderTail(h: PurposeBar, rest: seq<PurposeBar>, p: string, x: int, tail: seq<PurposeBar>)
    requires h.purpose != p && AddedUnder(rest, p, x, tail)
    ensures AddedUnder([h] + rest, p, x, [h] + tail)
  {
    PurposeCons(h, rest);
    PurposeCons(h, tail);
  }

  /**
   * `acc[p] = (acc[p] || 0) + x` on an object whose keys keep insertion
   * order: add to the entry for `p`, or append a new one.
   */
  function Upsert(acc: seq<PurposeBar>, p: string, x: int): (r: seq<PurposeBar>)
    ensures PurposesOf(r) == PurposesOf(acc) + {p}
    ensures DistinctPurposes(acc) ==> DistinctPurposes(r)
    ensures TotalAmount(r) == TotalAmount(acc) + x
    ensures forall q :: AmountIn(r, q) == AmountIn(acc, q) + (if q == p then x else 0)
  {
    if acc == [] then
      AddedUnderEmpty(p, x);
      [PurposeBar(p, x)]
    else
      var h, rest := acc[0], acc[1..];
      assert acc == [h] + rest;
      if h.purpose == p then
        AddedUnderHead(h, rest, x);
        [h.(amount := h.amount + x)] + rest
      else
        var tail := Upsert(rest, p, x);
        AddedUnderTail(h, rest, p, x, tail);
        [h] + tail
  }

  /** Reference sum: the loan amounts of the applications filed under purpose key `q`. */
  function PurposeTotal(apps: seq<Application>, q: string): int
    decreases |apps|
  {
    if apps == [] then 0
    else
      var last := apps[|apps| - 1];
      PurposeTotal(apps[..|apps| - 1], q) + (if PurposeKey(last) == q then last.loanAmount else 0)
  }

  /** Reference sum: every loan amount. */
  function LoanTotal(apps: seq<Application>): int
  {
    if apps == [] then 0 else apps[0].loanAmount + LoanTotal(apps[1..])
  }

  lemma {:induction false} LoanTotalSnoc(apps: seq<Application>, app: Application)
    ensures LoanTotal(apps + [app]) == LoanTotal(apps) + app.loanAmount
  {
    if apps != [] {
      LoanTotalSnoc(apps[1..], app);
      assert (apps + [app])[1..] == apps[1..] + [app];
    }
  }

  /**
   * getPurposeData: the `reduce` into per-purpose sums, then one bar per key.
   * One bar per distinct purpose; each carries the sum of that purpose's loan
   * amounts; together they add up to every loan amount.
   */
  function PurposeData(apps: seq<Application>): (r: seq<PurposeBar>)
    ensures DistinctPurposes(r)
    ensures PurposesOf(r) == set a | a in apps :: PurposeKey(a)
    ensures forall q :: AmountIn(r, q) == PurposeTotal(apps, q)
    ensures TotalAmount(r) == LoanTotal(apps)
    decreases |apps|
  {
    if apps == [] then []
    else
      var prefix := apps[..|apps| - 1];
      var last := apps[|apps| - 1];
      assert apps == prefix + [last];
      LoanTotalSnoc(prefix, last);
      assert (set a | a in apps :: PurposeKey(a)) == (set a | a in prefix :: PurposeKey(a)) + {PurposeKey(last)};
      Upsert(PurposeData(prefix), PurposeKey(last), last.loanAmount)
  }

  /** In a list with distinct purposes, an entry's amount is everything recorded under its purpose. */
  lemma {:induction false} DistinctAmountIn(bars: seq<PurposeBar>, j: nat)
    requires DistinctPurposes(bars) && j < |bars|
    ensures bars[j].amount == AmountIn(bars[j..], bars[j].purpose)
    ensures AmountIn(bars, bars[j].purpose) == bars[j].amount
    decreases |bars|
  {
    AbsentPurposeAmount(bars[j + 1..], bars[j].purpose);
    assert bars[j..][1..] == bars[j + 1..];
    if j > 0 {
      DistinctAmountIn(bars[1..], j - 1);
      assert bars[1..][j - 1] == bars[j];
    }
  }

  lemma {:induction false} AbsentPurposeAmount(bars: seq<PurposeBar>, q: string)
    requires forall b :: b in bars ==> b.purpose != q
    ensures AmountIn(bars, q) == 0
  {
    if bars != [] {
      AbsentPurposeAmount(bars[1..], q);
    }
  }

  /** Each purpose bar carries exactly the sum of `loanAmount` over the applications with that purpose. */
  lemma PurposeBarIsSum(apps: seq<Application>, j: nat)
    requires j < |PurposeData(apps)|
    ensures PurposeData(apps)[j].amount == PurposeTotal(apps, PurposeData(apps)[j].purpose)
  {
    DistinctAmountIn(PurposeData(apps), j);
  }
}
