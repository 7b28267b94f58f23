/** The administrator's statistics page: the user and report counts and
    the number of reports created on each of the last 30 days. Days are
    whole numbers (day 0 is any fixed day); today's date is a parameter. */
module Statistik {
  import opened Common

  /** A user as far as the counts need it. */
  datatype UserRecord = UserRecord(id: string, role: string)

  datatype Stats = Stats(totalUsers: nat, totalMahasiswa: nat, totalDpl: nat, totalLaporan: nat, totalBidang: nat)

  predicate IsMahasiswa(u: UserRecord) { u.role == "mahasiswa" }
  predicate IsDpl(u: UserRecord) { u.role == "dpl" }

  /** The three lists fetched together; `None` when the fetch failed. */
  datatype Fetched = Fetched(users: seq<UserRecord>, laporanCount: nat, bidangCount: nat)

  /** `fetchStats`: on success the counts over the fetched lists; on a
      failure the previous statistics stay as they were. */
  function FetchStats(prev: Stats, fetched: Option<Fetched>): (s: Stats)
    ensures fetched.None? ==> s == prev
    ensures fetched.Some? ==>
      var f := fetched.value;
      s.totalUsers == |f.users| &&
      s.totalMahasiswa == Count(f.users, IsMahasiswa) &&
      s.totalDpl == Count(f.users, IsDpl) &&
      s.totalMahasiswa + s.totalDpl <= s.totalUsers &&
      s.totalLaporan == f.laporanCount && s.totalBidang == f.bidangCount
  {
    match fetched
    case None => prev
    case Some(f) =>
      DisjointCounts(f.users, IsMahasiswa, IsDpl);
      Stats(|f.users|, Count(f.users, IsMahasiswa), Count(f.users, IsDpl), f.laporanCount, f.bidangCount)
  }

  // ----------------------------------------------------------- daily buckets

  /** The number of reports created on day `d`. */
  function DayCount(created: seq<int>, d: int): nat {
    if |created| == 0 then 0
    else DayCount(created[..|created| - 1], d) + (if created[|created| - 1] == d then 1 else 0)
  }

  /** The number of reports created on a day in `[a, b)`. */
  function InRange(created: seq<int>, a: int, b: int): (n: nat)
    ensures n <= |created|
  {
    if |created| == 0 then 0
    else InRange(created[..|created| - 1], a, b) + (if a <= created[|created| - 1] < b then 1 else 0)
  }

  datatype Bucket = Bucket(day: int, total: nat)

  /** `n` consecutive buckets from day `lo`, each holding its day's count. */
  function ChartFrom(created: seq<int>, lo: int, n: nat): (chart: seq<Bucket>)
    ensures |chart| == n
    ensures forall i :: 0 <= i < n ==> chart[i] == Bucket(lo + i, DayCount(created, lo + i))
  {
    seq(n, i requires 0 <= i < n => Bucket(lo + i, DayCount(created, lo + i)))
  }

  const WindowDays := 30

  /** `chartData`: today and the 29 days before it, oldest first. */
  function Chart(today: int, created: seq<int>): seq<Bucket> {
    ChartFrom(created, today - (WindowDays - 1), WindowDays)
  }

  /** The dictionary-based computation: zero buckets for the window, one
      increment per report whose day has a bucket, then the entries in
      ascending day order. */
  method DailyCounts(today: int, created: seq<int>) returns (chart: seq<Bucket>)
    ensures chart == Chart(today, created)
  {
    var counts: map<int, nat> := map[];
    for i := 0 to WindowDays
      invariant forall d :: d in counts <==> today - i < d <= today
      invariant forall d :: d in counts ==> counts[d] == 0
    {
      counts := counts[today - i := 0];
    }
    for j := 0 to |created|
      invariant forall d :: d in counts <==> today - WindowDays < d <= today
      invariant forall d :: d in counts ==> counts[d] == DayCount(created[..j], d)
    {
      assert created[..j + 1][..j] == created[..j];
      var d := created[j];
      if d in counts {
        counts := counts[d := counts[d] + 1];
      }
    }
    assert created[..|created|] == created;
    chart := [];
    var lo := today - (WindowDays - 1);
    for k := 0 to WindowDays
      invariant chart == ChartFrom(created, lo, k)
    {
      chart := chart + [Bucket(lo + k, counts[lo + k])];
    }
  }

  /** The buckets are in ascending day order, one per day of the window. */
  lemma ChartAscending(today: int, created: seq<int>, i: int, j: int)
    requires 0 <= i < j < |Chart(today, created)|
    ensures Chart(today, created)[i].day < Chart(today, created)[j].day
    ensures Chart(today, created)[|Chart(today, created)| - 1].day == today
  {
  }

  function Total(chart: seq<Bucket>): nat {
    if |chart| == 0 then 0 else Total(chart[..|chart| - 1]) + chart[|chart| - 1].total
  }

  lemma {:induction false} InRangeExtend(created: seq<int>, a: int, b: int)
    requires a <= b
    ensures InRange(created, a, b + 1) == InRange(created, a, b) + DayCount(created, b)
  {
    if |created| > 0 {
      InRangeExtend(created[..|created| - 1], a, b);
    }
  }

  lemma {:induction false} TotalFrom(created: seq<int>, lo: int, n: nat)
    ensures Total(ChartFrom(created, lo, n)) == InRange(created, lo, lo + n)
  {
    if n > 0 {
      TotalFrom(created, lo, n - 1);
      assert ChartFrom(created, lo, n)[..n - 1] == ChartFrom(created, lo, n - 1);
      InRangeExtend(created, lo, lo + n - 1);
    } else {
      InRangeEmpty(created, lo);
    }
  }

  lemma {:induction false} InRangeEmpty(created: seq<int>, a: int)
    ensures InRange(created, a, a) == 0
  {
    if |created| > 0 {
      InRangeEmpty(created[..|created| - 1], a);
    }
  }

  /** The chart counts exactly the reports of the last 30 days; reports
      outside the window are left out, so the totals never exceed the
      number of reports. */
  lemma ChartTotal(today: int, created: seq<int>)
    ensures Total(Chart(today, created)) == InRange(created, today - (WindowDays - 1), today + 1)
    ensures Total(Chart(today, created)) <= |created|
  {
    TotalFrom(created, today - (WindowDays - 1), WindowDays);
  }

  /** A report outside the window leaves every bucket as it was. */
  lemma {:induction false} OutsideWindowIgnored(today: int, created: seq<int>, d: int)
    requires d < today - (WindowDays - 1) || d > today
    ensures Chart(today, created + [d]) == Chart(today, created)
  {
    var s := created + [d];
    assert s[..|s| - 1] == created;
    var lo := today - (WindowDays - 1);
    forall i | 0 <= i < WindowDays
      ensures Chart(today, s)[i] == Chart(today, created)[i]
    {
      assert DayCount(s, lo + i) == DayCount(created, lo + i);
    }
  }
}
