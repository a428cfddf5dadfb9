/**
 * The dashboard's sales trend: one bucket per UTC day from the start of the range, filled from its successful
 * payments.
 */
module SalesTrend {
  import opened Lists

  const DAY: int := 24 * 60 * 60 * 1000

  datatype Payment = Payment(createdAt: int, amount: int, success: bool)
  datatype Entry = Entry(day: int, value: int)

  /** The UTC date of an instant, as the number of its day. */
  function DayOf(t: int): (day: int)
    ensures day * (24 * 60 * 60 * 1000) <= t < (day + 1) * (24 * 60 * 60 * 1000)
  {
    t / DAY
  }

  /** Whole days rounded up; for a range that runs backwards this is zero or negative. */
  function DaysBetween(start: int, end: int): int {
    -((start - end) / DAY)
  }

  function InRange(start: int, end: int): Payment -> bool {
    (p: Payment) => p.success && start <= p.createdAt <= end
  }

  function Amount(): Payment -> int { (p: Payment) => p.amount }
  function PaidOn(): Payment -> int { (p: Payment) => DayOf(p.createdAt) }
  function Value(): Entry -> int { (e: Entry) => e.value }

  function TotalSales(payments: seq<Payment>, start: int, end: int): int {
    Sum(Filter(payments, InRange(start, end)), Amount())
  }

  /** One more payment adds its amount to the total exactly if it succeeded within the range, both ends included. */
  lemma TotalSalesCounts(payments: seq<Payment>, p: Payment, start: int, end: int)
    ensures TotalSales([], start, end) == 0
    ensures TotalSales(payments + [p], start, end)
            == TotalSales(payments, start, end) + (if p.success && start <= p.createdAt <= end then p.amount else 0)
  {
    FilterAppend(payments, p, InRange(start, end));
    if InRange(start, end)(p) { SumAppend(Filter(payments, InRange(start, end)), p, Amount()); }
  }

  /** The days the loop makes buckets for. */
  function Days(first: int, n: nat): (r: seq<int>)
    ensures |r| == n && forall i :: 0 <= i < n ==> r[i] == first + i
  {
    seq(n, i => first + i)
  }

  function BucketCount(start: int, end: int): nat {
    if DaysBetween(start, end) < 0 then 0 else DaysBetween(start, end) + 1
  }

  /** Every step of 24 hours lands in the next UTC day. */
  lemma StepIsNextDay(start: int, i: int)
    ensures DayOf(start + i * DAY) == DayOf(start) + i
  {
    var q, r := start / DAY, start % DAY;
    assert start + i * DAY == (q + i) * DAY + r;
  }

  /**
   * The last bucket is the day of the range's end, or the day after it: that happens when the clock time of the start
   * is the earlier one.
   */
  lemma LastBucket(start: int, end: int)
    requires start <= end
    ensures DayOf(end) == DayOf(start) + DaysBetween(start, end) - (if start % DAY < end % DAY then 1 else 0)
  {
    var q, r := start / DAY, start % DAY;
    var u, v := end / DAY, end % DAY;
    assert start == q * DAY + r && end == u * DAY + v;
    assert start - end == (q - u) * DAY + (r - v);
  }

  /** Every payment of the range has a bucket. */
  lemma EveryPaymentHasBucket(start: int, end: int, t: int)
    requires start <= t <= end
    ensures DayOf(start) <= DayOf(t) < DayOf(start) + BucketCount(start, end)
  {
    LastBucket(start, end);
  }

  /** Each day's value is what was paid on that day, so the whole trend comes to the total sales. */
  lemma TrendConserves(payments: seq<Payment>, start: int, end: int, trend: seq<Entry>)
    requires IsTrend(Filter(payments, InRange(start, end)), start, end, trend)
    ensures Sum(trend, Value()) == TotalSales(payments, start, end)
  {
    var paid := Filter(payments, InRange(start, end));
    var days := Days(DayOf(start), BucketCount(start, end));
    SumAgree(trend, days, Value(), GroupTotal(paid, PaidOn(), Amount()));
    GroupTotalsAddUp(paid, days, PaidOn(), Amount());
    FilterMembers(payments, InRange(start, end));
    forall i | 0 <= i < |paid| ensures Amount()(paid[i]) == WithKeyIn(PaidOn(), days, Amount())(paid[i]) {
      assert paid[i] in paid;
      EveryPaymentHasBucket(start, end, paid[i].createdAt);
      assert days[DayOf(paid[i].createdAt) - DayOf(start)] in days;
    }
    SumAgree(paid, paid, Amount(), WithKeyIn(PaidOn(), days, Amount()));
  }

  /** Consecutive days from the start's, each with the sum of the payments made on it. */
  ghost predicate IsTrend(paid: seq<Payment>, start: int, end: int, trend: seq<Entry>) {
    && |trend| == BucketCount(start, end)
    && forall i :: 0 <= i < |trend| ==>
         trend[i] == Entry(DayOf(start) + i, Sum(paid, WithKey(PaidOn(), DayOf(start) + i, Amount())))
  }

  /** The buckets after some of the payments, in the order they were made. */
  ghost predicate Filled(paid: seq<Payment>, days: seq<int>, buckets: map<int, int>) {
    && (forall d :: d in days <==> d in buckets)
    && forall d :: d in buckets ==> buckets[d] == Sum(paid, WithKey(PaidOn(), d, Amount()))
  }

  lemma FillStep(paid: seq<Payment>, p: Payment, days: seq<int>, buckets: map<int, int>)
    requires Filled(paid, days, buckets)
    ensures Filled(paid + [p], days, if DayOf(p.createdAt) in buckets
                                     then buckets[DayOf(p.createdAt) := buckets[DayOf(p.createdAt)] + p.amount]
                                         else buckets)
  {
    forall d ensures Sum(paid + [p], WithKey(PaidOn(), d, Amount()))
                     == Sum(paid, WithKey(PaidOn(), d, Amount())) + (if DayOf(p.createdAt) == d then p.amount else 0) {
      SumAppend(paid, p, WithKey(PaidOn(), d, Amount()));
    }
  }

  class DashboardService {
    var payments: seq<Payment>

    constructor (payments: seq<Payment>)
      ensures this.payments == payments
    {
      this.payments := payments;
    }

    /** Empty buckets, one per step of 24 hours, in insertion order. */
    method MakeBuckets(start: int, end: int) returns (days: seq<int>, buckets: map<int, int>)
      ensures days == Days(DayOf(start), BucketCount(start, end))
      ensures Filled([], days, buckets)
    {
      days, buckets := [], map[];
      var i := 0;
      while i <= DaysBetween(start, end)
        invariant 0 <= i <= BucketCount(start, end)
        invariant days == Days(DayOf(start), i) && Filled([], days, buckets)
      {
        StepIsNextDay(start, i);
        var d := DayOf(start + i * DAY);
        days, buckets := days + [d], buckets[d := 0];
        i := i + 1;
      }
    }

    method Fill(paid: seq<Payment>, days: seq<int>, empty: map<int, int>) returns (buckets: map<int, int>)
      requires Filled([], days, empty)
      ensures Filled(paid, days, buckets)
    {
      buckets := empty;
      var i := 0;
      while i < |paid|
        invariant 0 <= i <= |paid| && Filled(paid[..i], days, buckets)
      {
        assert paid[..i + 1] == paid[..i] + [paid[i]];
        FillStep(paid[..i], paid[i], days, buckets);
        var d := DayOf(paid[i].createdAt);
        if d in buckets { buckets := buckets[d := buckets[d] + paid[i].amount]; }
        i := i + 1;
      }
      assert paid[..|paid|] == paid;
    }

    /** The buckets are listed by date, which is the order they were made in. */
    method GetSalesTrend(start: int, end: int) returns (totalSales: int, trend: seq<Entry>)
      ensures totalSales == TotalSales(payments, start, end)
      ensures IsTrend(Filter(payments, InRange(start, end)), start, end, trend)
      ensures Sum(trend, Value()) == totalSales
    {
      var paid := Filter(payments, InRange(start, end));
      totalSales := Sum(paid, Amount());
      var days, empty := MakeBuckets(start, end);
      var buckets := Fill(paid, days, empty);
      trend := seq(|days|, j requires 0 <= j < |days| && days[j] in buckets => Entry(days[j], buckets[days[j]]));
      TrendConserves(payments, start, end, trend);
    }
  }
}
