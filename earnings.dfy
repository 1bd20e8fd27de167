/**
 * The admin revenue widget (EarningsWidget component): one pass over the
 * transaction list computes each transaction's fee, the platform totals,
 * one bucket per calendar day, and the today / week / month windows; the
 * chart shows the last seven day buckets.
 *
 * Times are local wall-clock milliseconds since the epoch, so a local day
 * is a whole multiple of `DayMs`. A transaction's `toLocaleDateString()`
 * is its `dateKey`, an opaque string.
 */
module Earnings {

  const DayMs: int := 86400000

  /** Fallback fee when a transaction has no `total_fee`: 1.5 % plus 25 INR. */
  const FallbackFeeRate: real := 0.015

  const FallbackNetworkFee: real := 25.0

  /** `slice(-7)`. */
  const ChartDays: nat := 7

  /** A transaction as the widget reads it; a missing `total_fee` is 0. */
  datatype EarningTx = EarningTx(createdMs: int, dateKey: string, totalFee: real, amountInr: real)

  /** One entry of `dailyData`. */
  datatype Bucket = Bucket(date: string, earnings: real, volume: real)

  /** The `earnings` state. */
  datatype Summary = Summary(today: real, thisWeek: real, thisMonth: real, totalTransactions: nat, totalVolume: real)

  datatype Thresholds = Thresholds(todayStart: int, weekStart: int, monthStart: int)

  // ---------------------------------------------------------------------
  // Fees
  // ---------------------------------------------------------------------

  /** `tx.total_fee || ((tx.amount_inr * 0.015) + 25)`. */
  function Fee(tx: EarningTx): (f: real)
    ensures tx.totalFee != 0.0 ==> f == tx.totalFee
    ensures tx.totalFee == 0.0 ==> f == FallbackFeeRate * tx.amountInr + FallbackNetworkFee
  {
    if tx.totalFee != 0.0 then tx.totalFee else tx.amountInr * FallbackFeeRate + FallbackNetworkFee
  }

  /** Transactions whose recorded fee and amount are non-negative. */
  predicate WellFormed(txs: seq<EarningTx>) {
    forall i :: 0 <= i < |txs| ==> txs[i].totalFee >= 0.0 && txs[i].amountInr >= 0.0
  }

  /** The fallback fee of a well-formed transaction is at least the flat 25 INR. */
  lemma FeeBounds(tx: EarningTx)
    requires tx.totalFee >= 0.0 && tx.amountInr >= 0.0
    ensures Fee(tx) >= 0.0
    ensures tx.totalFee == 0.0 ==> Fee(tx) >= FallbackNetworkFee
  {
  }

  // ---------------------------------------------------------------------
  // Reference definitions of the aggregates, over a prefix of the list
  // ---------------------------------------------------------------------

  function TotalFees(txs: seq<EarningTx>): real
    decreases |txs|
  {
    if txs == [] then 0.0 else TotalFees(txs[..|txs| - 1]) + Fee(txs[|txs| - 1])
  }

  function Volume(txs: seq<EarningTx>): real
    decreases |txs|
  {
    if txs == [] then 0.0 else Volume(txs[..|txs| - 1]) + txs[|txs| - 1].amountInr
  }

  /** The fees of the transactions created at or after `t`. */
  function FeesSince(txs: seq<EarningTx>, t: int): real
    decreases |txs|
  {
    if txs == [] then 0.0
    else FeesSince(txs[..|txs| - 1], t) + (if txs[|txs| - 1].createdMs >= t then Fee(txs[|txs| - 1]) else 0.0)
  }

  /** The fees of the transactions with date key `k`. */
  function FeesOn(txs: seq<EarningTx>, k: string): real
    decreases |txs|
  {
    if txs == [] then 0.0
    else FeesOn(txs[..|txs| - 1], k) + (if txs[|txs| - 1].dateKey == k then Fee(txs[|txs| - 1]) else 0.0)
  }

  /** The volume of the transactions with date key `k`. */
  function VolumeOn(txs: seq<EarningTx>, k: string): real
    decreases |txs|
  {
    if txs == [] then 0.0
    else VolumeOn(txs[..|txs| - 1], k) + (if txs[|txs| - 1].dateKey == k then txs[|txs| - 1].amountInr else 0.0)
  }

  /** The bucket for `k`, or the empty bucket a first transaction of that day starts from. */
  function BucketOf(m: map<string, Bucket>, k: string): Bucket {
    if k in m then m[k] else Bucket(k, 0.0, 0.0)
  }

  function AddToBucket(b: Bucket, tx: EarningTx): Bucket {
    Bucket(b.date, b.earnings + Fee(tx), b.volume + tx.amountInr)
  }

  /** `dailyData` after the transactions of `txs`. */
  function Buckets(txs: seq<EarningTx>): map<string, Bucket>
    decreases |txs|
  {
    if txs == [] then map[]
    else
      var m := Buckets(txs[..|txs| - 1]);
      var tx := txs[|txs| - 1];
      m[tx.dateKey := AddToBucket(BucketOf(m, tx.dateKey), tx)]
  }

  /** The insertion order of `dailyData`'s keys: each date key where it first occurs. */
  function Keys(txs: seq<EarningTx>): seq<string>
    decreases |txs|
  {
    if txs == [] then []
    else
      var ks := Keys(txs[..|txs| - 1]);
      var k := txs[|txs| - 1].dateKey;
      if k in ks then ks else ks + [k]
  }

  predicate NoDup(ks: seq<string>) {
    forall i, j :: 0 <= i < j < |ks| ==> ks[i] != ks[j]
  }

  /** `Object.values(dailyData)`: the buckets in key insertion order. */
  function Values(ks: seq<string>, m: map<string, Bucket>): (vs: seq<Bucket>)
    ensures |vs| == |ks|
    ensures forall j :: 0 <= j < |ks| ==> vs[j] == BucketOf(m, ks[j])
  {
    seq(|ks|, j requires 0 <= j < |ks| => BucketOf(m, ks[j]))
  }

  /** `array.slice(-n)`: the last min(|s|, n) elements of `s`. */
  function LastN<T>(s: seq<T>, n: nat): (r: seq<T>)
    ensures |r| == if |s| < n then |s| else n
    ensures r == s[|s| - |r|..]
  {
    if |s| <= n then s else s[|s| - n..]
  }

  /** `chartData`. */
  function ChartOf(txs: seq<EarningTx>): seq<Bucket> {
    LastN(Values(Keys(txs), Buckets(txs)), ChartDays)
  }

  // ---------------------------------------------------------------------
  // Properties of the buckets
  // ---------------------------------------------------------------------

  /**
   * The keys are distinct, they are exactly the keys of `dailyData`, and
   * each bucket carries its own key as its date.
   */
  lemma {:induction false} KeysMatchBuckets(txs: seq<EarningTx>)
    ensures NoDup(Keys(txs))
    ensures forall k :: k in Keys(txs) <==> k in Buckets(txs)
    ensures forall k :: k in Buckets(txs) ==> Buckets(txs)[k].date == k
    decreases |txs|
  {
    if txs != [] {
      KeysMatchBuckets(txs[..|txs| - 1]);
    }
  }

  /** Each transaction lands in the bucket of its own day and no other. */
  lemma {:induction false} BucketIsDaySum(txs: seq<EarningTx>, k: string)
    ensures BucketOf(Buckets(txs), k).earnings == FeesOn(txs, k)
    ensures BucketOf(Buckets(txs), k).volume == VolumeOn(txs, k)
    ensures k !in Buckets(txs) <==> forall i :: 0 <= i < |txs| ==> txs[i].dateKey != k
    decreases |txs|
  {
    if txs != [] {
      var p := txs[..|txs| - 1];
      BucketIsDaySum(p, k);
      assert forall i :: 0 <= i < |p| ==> p[i] == txs[i];
    }
  }

  function SumEarnings(ks: seq<string>, m: map<string, Bucket>): real
    decreases |ks|
  {
    if ks == [] then 0.0 else SumEarnings(ks[..|ks| - 1], m) + BucketOf(m, ks[|ks| - 1]).earnings
  }

  function SumVolume(ks: seq<string>, m: map<string, Bucket>): real
    decreases |ks|
  {
    if ks == [] then 0.0 else SumVolume(ks[..|ks| - 1], m) + BucketOf(m, ks[|ks| - 1]).volume
  }

  /** Changing the bucket of a key outside `ks` leaves the sums over `ks` alone. */
  lemma {:induction false} SumsIgnoreOtherKey(ks: seq<string>, m: map<string, Bucket>, k: string, b: Bucket)
    requires k !in ks
    ensures SumEarnings(ks, m[k := b]) == SumEarnings(ks, m)
    ensures SumVolume(ks, m[k := b]) == SumVolume(ks, m)
    decreases |ks|
  {
    if ks != [] {
      SumsIgnoreOtherKey(ks[..|ks| - 1], m, k, b);
    }
  }

  /** Changing the bucket of a key that occurs once in `ks` changes the sums by the difference. */
  lemma {:induction false} SumsTrackKey(ks: seq<string>, m: map<string, Bucket>, k: string, b: Bucket)
    requires NoDup(ks) && k in ks
    ensures SumEarnings(ks, m[k := b]) == SumEarnings(ks, m) - BucketOf(m, k).earnings + b.earnings
    ensures SumVolume(ks, m[k := b]) == SumVolume(ks, m) - BucketOf(m, k).volume + b.volume
    decreases |ks|
  {
    var p := ks[..|ks| - 1];
    if ks[|ks| - 1] == k {
      assert k !in p;
      SumsIgnoreOtherKey(p, m, k, b);
    } else {
      assert k in p;
      SumsTrackKey(p, m, k, b);
    }
  }

  /** The day buckets partition the list: their earnings add up to all fees, their volumes to the volume. */
  lemma {:induction false} BucketsSumToTotals(txs: seq<EarningTx>)
    ensures SumEarnings(Keys(txs), Buckets(txs)) == TotalFees(txs)
    ensures SumVolume(Keys(txs), Buckets(txs)) == Volume(txs)
    decreases |txs|
  {
    if txs != [] {
      var p := txs[..|txs| - 1];
      var tx := txs[|txs| - 1];
      var k := tx.dateKey;
      var ks, m := Keys(p), Buckets(p);
      var b := AddToBucket(BucketOf(m, k), tx);
      BucketsSumToTotals(p);
      KeysMatchBuckets(p);
      if k in ks {
        SumsTrackKey(ks, m, k, b);
      } else {
        assert (ks + [k])[..|ks|] == ks;
        SumsIgnoreOtherKey(ks, m, k, b);
      }
    }
  }

  /** A later threshold never collects more fees, and no window collects more than all fees. */
  lemma {:induction false} WindowsNest(txs: seq<EarningTx>, early: int, late: int)
    requires WellFormed(txs) && early <= late
    ensures 0.0 <= FeesSince(txs, late) <= FeesSince(txs, early) <= TotalFees(txs)
    decreases |txs|
  {
    if txs != [] {
      var p := txs[..|txs| - 1];
      assert WellFormed(p) by {
        assert forall i :: 0 <= i < |p| ==> p[i] == txs[i];
      }
      WindowsNest(p, early, late);
      FeeBounds(txs[|txs| - 1]);
    }
  }

  /** The last `n` values are the buckets of the last `n` keys. */
  lemma LastValues(ks: seq<string>, m: map<string, Bucket>, n: nat)
    ensures LastN(Values(ks, m), n) == Values(LastN(ks, n), m)
  {
    if n < |ks| {
      var vs, lk := Values(ks, m), ks[|ks| - n..];
      var c, d := vs[|vs| - n..], Values(lk, m);
      forall j | 0 <= j < n
        ensures c[j] == d[j]
      {
        assert c[j] == vs[|ks| - n + j];
        assert lk[j] == ks[|ks| - n + j];
      }
      assert c == d;
    }
  }

  /** A suffix of a duplicate-free sequence is duplicate-free and draws from it. */
  lemma LastNNoDup(ks: seq<string>, n: nat)
    requires NoDup(ks)
    ensures NoDup(LastN(ks, n))
    ensures forall k :: k in LastN(ks, n) ==> k in ks
  {
    if n < |ks| {
      var o := |ks| - n;
      var lk := ks[o..];
      forall i, j | 0 <= i < j < |lk|
        ensures lk[i] != lk[j]
      {
        assert lk[i] == ks[o + i] && lk[j] == ks[o + j];
      }
      forall k | k in lk
        ensures k in ks
      {
        var j :| 0 <= j < |lk| && lk[j] == k;
        assert lk[j] == ks[o + j];
      }
    }
  }

  /** The buckets of distinct stored keys are stored buckets of distinct days. */
  lemma ValuesDistinct(ks: seq<string>, m: map<string, Bucket>)
    requires NoDup(ks)
    requires forall k :: k in ks ==> k in m && m[k].date == k
    ensures forall j :: 0 <= j < |Values(ks, m)| ==> Values(ks, m)[j].date in m
    ensures forall i, j :: 0 <= i < j < |Values(ks, m)| ==> Values(ks, m)[i].date != Values(ks, m)[j].date
  {
    var vs := Values(ks, m);
    forall j | 0 <= j < |vs|
      ensures vs[j].date == ks[j] && ks[j] in m
    {
      assert ks[j] in ks;
    }
  }

  /** The chart holds the buckets of the last min(7, #days) date keys, in first-seen order. */
  lemma {:induction false} ChartIsLastDays(txs: seq<EarningTx>)
    ensures ChartOf(txs) == Values(LastN(Keys(txs), ChartDays), Buckets(txs))
  {
    LastValues(Keys(txs), Buckets(txs), ChartDays);
  }

  /** Every chart entry is a stored bucket, and no day appears twice. */
  lemma {:induction false} ChartDaysDistinct(txs: seq<EarningTx>)
    ensures forall j :: 0 <= j < |ChartOf(txs)| ==> ChartOf(txs)[j].date in Buckets(txs)
    ensures forall i, j :: 0 <= i < j < |ChartOf(txs)| ==> ChartOf(txs)[i].date != ChartOf(txs)[j].date
  {
    var ks, m := Keys(txs), Buckets(txs);
    ChartIsLastDays(txs);
    KeysMatchBuckets(txs);
    LastNNoDup(ks, ChartDays);
    ValuesDistinct(LastN(ks, ChartDays), m);
  }

  // ---------------------------------------------------------------------
  // The window thresholds
  // ---------------------------------------------------------------------

  /**
   * Day of the month (1-31) of the day `days` after 1970-01-01 in the
   * proleptic Gregorian calendar (the civil-from-days algorithm).
   */
  function DayOfMonth(days: int): (d: int)
    ensures 1 <= d <= 31
  {
    var z := days + 719468;
    var era := z / 146097;
    var doe := z - era * 146097;
    var yoe := (doe - doe / 1460 + doe / 36524 - doe / 146096) / 365;
    var doy := doe - (365 * yoe + yoe / 4 - yoe / 100);
    DayInMonthBounds(doy);
    doy - (153 * ((5 * doy + 2) / 153) + 2) / 5 + 1
  }

  /** The last step of the algorithm lands in 1..31 whatever the day of the year. */
  lemma DayInMonthBounds(doy: int)
    ensures 1 <= doy - (153 * ((5 * doy + 2) / 153) + 2) / 5 + 1 <= 31
  {
    var mp := (5 * doy + 2) / 153;
    var r := 5 * doy + 2 - 153 * mp;
    assert 0 <= r < 153;
    var q := (153 * mp + 2) / 5;
    assert 153 * mp + 2 == 5 * doy + 4 - r;
    assert 5 * q <= 5 * doy + 4 - r < 5 * q + 5;
  }

  /** 2025-09-26 (day 20357) is the 26th. */
  lemma DayOfMonthExample()
    ensures DayOfMonth(20357) == 26
  {
    assert 739825 / 146097 == 5;
    assert 739825 - 5 * 146097 == 9340;
    assert (9340 - 9340 / 1460 + 9340 / 36524 - 9340 / 146096) / 365 == 25;
    assert 9340 - (365 * 25 + 25 / 4 - 25 / 100) == 209;
    assert (5 * 209 + 2) / 153 == 6;
    assert 209 - (153 * 6 + 2) / 5 + 1 == 26;
  }

  /** 2024-02-29 (day 19782) is the 29th: the leap day is counted. */
  lemma LeapDayExample()
    ensures DayOfMonth(19782) == 29
  {
    assert 739250 / 146097 == 5;
    assert 739250 - 5 * 146097 == 8765;
    assert (8765 - 8765 / 1460 + 8765 / 36524 - 8765 / 146096) / 365 == 23;
    assert 8765 - (365 * 23 + 23 / 4 - 23 / 100) == 365;
    assert (5 * 365 + 2) / 153 == 11;
    assert 365 - (153 * 11 + 2) / 5 + 1 == 29;
  }

  /**
   * The three thresholds, computed by mutating one date as the widget does:
   * `setHours(0,0,0,0)` takes it to local midnight, `setDate(getDate() - 7)`
   * back seven days, and `setDate(1)` to the first of THAT month, so the
   * month window starts at the first of the month that contains the day a
   * week ago.
   */
  method ComputeThresholds(nowMs: int) returns (th: Thresholds)
    ensures th == ThresholdsAt(nowMs)
    ensures th.monthStart <= th.weekStart <= th.todayStart <= nowMs < th.todayStart + DayMs
    ensures th.todayStart % DayMs == 0 && th.weekStart == th.todayStart - 7 * DayMs
    ensures th.monthStart % DayMs == 0 && th.weekStart - th.monthStart < 31 * DayMs
  {
    var now := nowMs;
    now := now - now % DayMs;
    assert now == (nowMs / DayMs) * DayMs;
    var todayStart := now;
    now := now - 7 * DayMs;
    var weekStart := now;
    now := now - (DayOfMonth(now / DayMs) - 1) * DayMs;
    var monthStart := now;
    th := Thresholds(todayStart, weekStart, monthStart);
  }

  /** The thresholds as a function of the clock, for use in specifications; `today` counts local days. */
  function ThresholdsAt(nowMs: int): (th: Thresholds)
    ensures th.monthStart <= th.weekStart <= th.todayStart <= nowMs < th.todayStart + DayMs
    ensures th.todayStart % DayMs == 0 && th.weekStart == th.todayStart - 7 * DayMs
    ensures th.monthStart % DayMs == 0 && th.weekStart - th.monthStart < 31 * DayMs
  {
    var today := nowMs / DayMs;
    var week := today - 7;
    var month := week - (DayOfMonth(week) - 1);
    DayMultiples(today);
    DayMultiples(month);
    Thresholds(today * DayMs, week * DayMs, month * DayMs)
  }

  lemma DayMultiples(days: int)
    ensures (days * DayMs) % DayMs == 0
  {
  }

  /**
   * Friday 2025-10-03 at noon: the week window starts on 2025-09-26, and
   * so the month window starts on 2025-09-01 rather than 2025-10-01.
   */
  lemma MonthWindowStartsInPreviousMonth()
    ensures ThresholdsAt(1759492800000).todayStart == 1759449600000
    ensures ThresholdsAt(1759492800000).weekStart == 1758844800000
    ensures ThresholdsAt(1759492800000).monthStart == 1756684800000
  {
    DayOfMonthExample();
  }

  // ---------------------------------------------------------------------
  // The aggregation pass
  // ---------------------------------------------------------------------

  /** The loop's accumulators: the three windows, the volume, `dailyData` and its key order. */
  datatype Acc = Acc(today: real, week: real, month: real, volume: real, daily: map<string, Bucket>, order: seq<string>)

  /** One iteration of the `forEach` body. */
  function Step(a: Acc, tx: EarningTx, th: Thresholds): Acc {
    var fee := Fee(tx);
    var k := tx.dateKey;
    Acc(a.today + (if tx.createdMs >= th.todayStart then fee else 0.0),
        a.week + (if tx.createdMs >= th.weekStart then fee else 0.0),
        a.month + (if tx.createdMs >= th.monthStart then fee else 0.0),
        a.volume + tx.amountInr,
        a.daily[k := AddToBucket(BucketOf(a.daily, k), tx)],
        if k in a.daily then a.order else a.order + [k])
  }

  /** The accumulators after the `forEach` has visited `txs`. */
  function Aggregate(txs: seq<EarningTx>, th: Thresholds): Acc
    decreases |txs|
  {
    if txs == [] then Acc(0.0, 0.0, 0.0, 0.0, map[], [])
    else Step(Aggregate(txs[..|txs| - 1], th), txs[|txs| - 1], th)
  }

  /** The fold computes the reference aggregates: windows, volume, buckets and key order. */
  lemma {:induction false} AggregateMeaning(txs: seq<EarningTx>, th: Thresholds)
    ensures Aggregate(txs, th).today == FeesSince(txs, th.todayStart)
    ensures Aggregate(txs, th).week == FeesSince(txs, th.weekStart)
    ensures Aggregate(txs, th).month == FeesSince(txs, th.monthStart)
    ensures Aggregate(txs, th).volume == Volume(txs)
    ensures Aggregate(txs, th).daily == Buckets(txs)
    ensures Aggregate(txs, th).order == Keys(txs)
    decreases |txs|
  {
    if txs != [] {
      AggregateMeaning(txs[..|txs| - 1], th);
      KeysMatchBuckets(txs[..|txs| - 1]);
    }
  }

  /** The last step of the fold. */
  lemma AggregateSnoc(txs: seq<EarningTx>, i: nat, th: Thresholds)
    requires i < |txs|
    ensures Aggregate(txs[..i + 1], th) == Step(Aggregate(txs[..i], th), txs[i], th)
  {
    assert txs[..i + 1][..i] == txs[..i];
  }

  /** A state whose components are those of one step is that step. */
  lemma StepComponents(a: Acc, tx: EarningTx, th: Thresholds, b: Acc, bucket: Bucket)
    requires bucket == AddToBucket(BucketOf(a.daily, tx.dateKey), tx)
    requires b.today == a.today + (if tx.createdMs >= th.todayStart then Fee(tx) else 0.0)
    requires b.week == a.week + (if tx.createdMs >= th.weekStart then Fee(tx) else 0.0)
    requires b.month == a.month + (if tx.createdMs >= th.monthStart then Fee(tx) else 0.0)
    requires b.volume == a.volume + tx.amountInr
    requires b.daily == a.daily[tx.dateKey := bucket]
    requires b.order == if tx.dateKey in a.daily then a.order else a.order + [tx.dateKey]
    ensures b == Step(a, tx, th)
  {
  }

  /** Writing an entry twice leaves only the second write. */
  lemma OverwriteEntry(m: map<string, Bucket>, m': map<string, Bucket>, k: string, b: Bucket)
    requires m' == m || (k !in m && m' == m[k := Bucket(k, 0.0, 0.0)])
    ensures m'[k := b] == m[k := b]
  {
  }

  /** The `forEach` of `loadEarnings`: the accumulators after one pass over the list. */
  method Accumulate(txs: seq<EarningTx>, th: Thresholds) returns (acc: Acc)
    ensures acc == Aggregate(txs, th)
  {
    var todayEarnings, weekEarnings, monthEarnings, totalVolume := 0.0, 0.0, 0.0, 0.0;
    var dailyData: map<string, Bucket> := map[];
    var order: seq<string> := [];
    var i := 0;
    while i < |txs|
      invariant 0 <= i <= |txs|
      invariant Acc(todayEarnings, weekEarnings, monthEarnings, totalVolume, dailyData, order) == Aggregate(txs[..i], th)
    {
      var tx := txs[i];
      ghost var before := Acc(todayEarnings, weekEarnings, monthEarnings, totalVolume, dailyData, order);
      var fee := if tx.totalFee != 0.0 then tx.totalFee else tx.amountInr * FallbackFeeRate + FallbackNetworkFee;
      assert fee == Fee(tx);
      totalVolume := totalVolume + tx.amountInr;
      if tx.dateKey !in dailyData {
        dailyData := dailyData[tx.dateKey := Bucket(tx.dateKey, 0.0, 0.0)];
        order := order + [tx.dateKey];
      }
      assert order == if tx.dateKey in before.daily then before.order else before.order + [tx.dateKey];
      var bucket := dailyData[tx.dateKey];
      assert bucket == BucketOf(before.daily, tx.dateKey);
      ghost var seeded := dailyData;
      dailyData := dailyData[tx.dateKey := Bucket(bucket.date, bucket.earnings + fee, bucket.volume + tx.amountInr)];
      OverwriteEntry(before.daily, seeded, tx.dateKey, AddToBucket(bucket, tx));
      if tx.createdMs >= th.todayStart {
        todayEarnings := todayEarnings + fee;
      }
      if tx.createdMs >= th.weekStart {
        weekEarnings := weekEarnings + fee;
      }
      if tx.createdMs >= th.monthStart {
        monthEarnings := monthEarnings + fee;
      }
      StepComponents(before, tx, th, Acc(todayEarnings, weekEarnings, monthEarnings, totalVolume, dailyData, order), AddToBucket(bucket, tx));
      AggregateSnoc(txs, i, th);
      i := i + 1;
    }
    assert txs[..|txs|] == txs;
    acc := Acc(todayEarnings, weekEarnings, monthEarnings, totalVolume, dailyData, order);
  }

  /** `loadEarnings` once the transactions have arrived. */
  method LoadEarnings(txs: seq<EarningTx>, nowMs: int) returns (summary: Summary, chart: seq<Bucket>)
    ensures summary.today == FeesSince(txs, ThresholdsAt(nowMs).todayStart)
    ensures summary.thisWeek == FeesSince(txs, ThresholdsAt(nowMs).weekStart)
    ensures summary.thisMonth == FeesSince(txs, ThresholdsAt(nowMs).monthStart)
    ensures summary.totalTransactions == |txs| && summary.totalVolume == Volume(txs)
    ensures chart == ChartOf(txs)
  {
    var th := ComputeThresholds(nowMs);
    var acc := Accumulate(txs, th);
    AggregateMeaning(txs, th);
    summary := Summary(acc.today, acc.week, acc.month, |txs|, acc.volume);
    chart := LastN(Values(acc.order, acc.daily), ChartDays);
  }

  /** With well-formed fees the three windows nest: today <= week <= month <= all fees. */
  lemma SummaryWindowsOrdered(txs: seq<EarningTx>, nowMs: int)
    requires WellFormed(txs)
    ensures 0.0 <= FeesSince(txs, ThresholdsAt(nowMs).todayStart)
    ensures FeesSince(txs, ThresholdsAt(nowMs).todayStart) <= FeesSince(txs, ThresholdsAt(nowMs).weekStart)
    ensures FeesSince(txs, ThresholdsAt(nowMs).weekStart) <= FeesSince(txs, ThresholdsAt(nowMs).monthStart)
    ensures FeesSince(txs, ThresholdsAt(nowMs).monthStart) <= TotalFees(txs)
  {
    var th := ThresholdsAt(nowMs);
    WindowsNest(txs, th.weekStart, th.todayStart);
    WindowsNest(txs, th.monthStart, th.weekStart);
  }
}
