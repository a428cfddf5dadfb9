/**
 * Order rewards: a clamped share of the platform's commission under a monthly cap, with points, lifetime spend and
 * tier. Stored money is whole fils. What is computed from a percentage is kept in hundredths of a fil until it is
 * stored, rounded.
 */
module Loyalty {
  import opened Lists

  datatype Tier = BASIC | SILVER | GOLD | VIP | PARTNER

  datatype Payment = Payment(commission: nat, total: nat)
  datatype Order = Order(completed: bool, store: Option<nat>, disputeCount: nat, returnCount: nat,
                         payments: seq<Payment>)
  datatype Profit = Profit(month: int, amount: nat)
  datatype Customer = Customer(totalSpent: nat, tier: Tier, points: nat, balance: int, profits: seq<Profit>)

  const MIN_ORDER_REWARD := 2_00_00
  const MAX_ORDER_REWARD := 150_00_00

  function Rank(t: Tier): nat {
    match t
    case BASIC => 1
    case SILVER => 2
    case GOLD => 3
    case VIP => 4
    case PARTNER => 5
  }

  function CalculateTier(totalSpent: int): Tier {
    if totalSpent >= 20000_00 then PARTNER
    else if totalSpent >= 10000_00 then VIP
    else if totalSpent >= 3000_00 then GOLD
    else if totalSpent >= 1000_00 then SILVER
    else BASIC
  }

  function Percent(t: Tier): nat {
    match t
    case BASIC => 2
    case SILVER => 3
    case GOLD => 4
    case VIP => 5
    case PARTNER => 6
  }

  /** The month's cap; `monthSpent` is what the customer's completed orders of the month come to. */
  function EffectiveCap(t: Tier, monthSpent: nat): nat {
    match t
    case PARTNER => if monthSpent * 10 < 5000_00_00 then 5000_00_00 else monthSpent * 10
    case VIP => 5000_00_00
    case _ => 2000_00_00
  }

  function Clamp(raw: int): int {
    if raw < MIN_ORDER_REWARD then MIN_ORDER_REWARD else if raw > MAX_ORDER_REWARD then MAX_ORDER_REWARD else raw
  }

  /** A column of two decimals rounds what it stores. */
  function Stored(x: nat): (r: nat)
    ensures x - 50 < 100 * r <= x + 50
  {
    (x + 50) / 100
  }

  function AmountOf(): Profit -> int { (p: Profit) => p.amount }
  function InMonth(m: int): Profit -> int { (p: Profit) => if p.month == m then p.amount else 0 }
  function SinceMonth(m: int): Profit -> int { (p: Profit) => if p.month >= m then p.amount else 0 }
  function CommissionOf(): Payment -> int { (p: Payment) => p.commission }
  function TotalOf(): Payment -> int { (p: Payment) => p.total }

  function Commission(o: Order): int { Sum(o.payments, CommissionOf()) }
  function OrderTotal(o: Order): int { Sum(o.payments, TotalOf()) }

  predicate Rewarded(o: Order) {
    o.completed && o.disputeCount == 0 && o.returnCount == 0 && Commission(o) > 0
  }

  /** The reward, in hundredths of a fil, given what the month has paid so far. */
  function Earned(t: Tier, commission: int, monthSpent: nat, current: nat): nat {
    Limited(Clamp(commission * Percent(t)), EffectiveCap(t, monthSpent), current * 100)
  }

  function Limited(full: nat, cap: nat, paid: nat): nat {
    if paid >= cap then 0 else if paid + full > cap then cap - paid else full
  }

  function Granted(c: Customer, o: Order, month: int, monthSpent: nat): Customer {
    if !Rewarded(o) then c
    else
      SumNonNegative(o.payments, TotalOf());
      SumNonNegative(c.profits, SinceMonth(month));
      var earned := Earned(c.tier, Commission(o), monthSpent, Sum(c.profits, SinceMonth(month)));
      var spent, profits := c.totalSpent + OrderTotal(o), c.profits + [Profit(month, Stored(earned))];
      Customer(spent, CalculateTier(spent), c.points + Commission(o) / 100, c.balance + Stored(earned),
               if earned > 0 then profits else c.profits)
  }

  function Cancelled(c: Customer): Customer {
    c.(points := 0, tier := BASIC)
  }

  datatype Event = Grant(order: Order, month: int, monthSpent: nat) | Cancel

  function Apply(c: Customer, e: Event): Customer {
    match e
    case Grant(o, month, spent) => Granted(c, o, month, spent)
    case Cancel => Cancelled(c)
  }

  function Run(c: Customer, events: seq<Event>): Customer {
    if events == [] then c else Apply(Run(c, events[..|events| - 1]), events[|events| - 1])
  }

  // ---- The monthly cap --------------------------------------------------------------------------------------

  /** The cap a grant of that month runs under, 0 for anything else. */
  function CapInForce(c: Customer, e: Event, month: int): nat {
    if e.Grant? && e.month == month && Rewarded(e.order) then EffectiveCap(c.tier, e.monthSpent) else 0
  }

  /** The largest cap in force at any grant of the month over the run. */
  function LargestCap(c: Customer, events: seq<Event>, month: int): nat {
    if events == [] then 0
    else
      var init := events[..|events| - 1];
      var before, now := LargestCap(c, init, month), CapInForce(Run(c, init), events[|events| - 1], month);
      if before < now then now else before
  }

  lemma {:induction false} MonthWithinSince(s: seq<Profit>, m: int)
    ensures 0 <= Sum(s, InMonth(m)) <= Sum(s, SinceMonth(m))
  {
    if s != [] { MonthWithinSince(s[..|s| - 1], m); }
  }

  lemma GrantCapped(c: Customer, e: Event, month: int)
    ensures Sum(Apply(c, e).profits, InMonth(month)) >= Sum(c.profits, InMonth(month))
    ensures Sum(Apply(c, e).profits, InMonth(month)) > Sum(c.profits, InMonth(month))
            ==> Sum(Apply(c, e).profits, InMonth(month)) <= Stored(CapInForce(c, e, month))
  {
    if e.Grant? && Rewarded(e.order) {
      SumNonNegative(e.order.payments, TotalOf());
      SumNonNegative(c.profits, SinceMonth(e.month));
      MonthWithinSince(c.profits, e.month);
      var earned := Earned(c.tier, Commission(e.order), e.monthSpent, Sum(c.profits, SinceMonth(e.month)));
      SumAppend(c.profits, Profit(e.month, Stored(earned)), InMonth(month));
    }
  }

  lemma StoredMonotone(x: nat, y: nat)
    requires x <= y
    ensures Stored(x) <= Stored(y)
  {
  }

  /**
   * Whatever grants and cancellations come, a month never pays more than the largest cap in force at one of its
   * grants.
   */
  lemma {:induction false} RunCapped(c: Customer, events: seq<Event>, month: int)
    requires c.profits == []
    ensures Sum(Run(c, events).profits, InMonth(month)) <= Stored(LargestCap(c, events, month))
  {
    if events != [] {
      var init := events[..|events| - 1];
      RunCapped(c, init, month);
      GrantCapped(Run(c, init), events[|events| - 1], month);
      StoredMonotone(LargestCap(c, init, month), LargestCap(c, events, month));
      StoredMonotone(CapInForce(Run(c, init), events[|events| - 1], month), LargestCap(c, events, month));
    }
  }

  /**
   * A positive reward is the clamped share whenever that fits under the cap and the exact remainder to the cap
   * otherwise.
   */
  lemma EarnedIsClampOrRemainder(t: Tier, commission: int, monthSpent: nat, current: nat)
    ensures var r, cap := Earned(t, commission, monthSpent, current), EffectiveCap(t, monthSpent);
            && (r == 0 <==> current * 100 >= cap)
            && (r > 0 ==> MIN_ORDER_REWARD <= r <= MAX_ORDER_REWARD || current * 100 + r == cap)
            && (r > 0 && current * 100 + r < cap ==> r == Clamp(commission * Percent(t)))
            && (current * 100 <= cap ==> current * 100 + r <= cap)
  {
  }

  lemma RoundedPastIff(full: nat, cap: nat, current: nat)
    requires current * 100 <= cap
    ensures (current + Stored(Limited(full, cap, current * 100))) * 100 > cap
            <==> cap % 100 >= 50 && current * 100 < cap && full >= cap - cap % 100 + 50 - current * 100
  {
    var q, d := cap / 100, cap % 100;
    assert cap == q * 100 + d;
  }

  /**
   * Storing two decimals can carry the month past its cap, by less than a fil. That takes a cap ending in half a fil
   * or more, which only a PARTNER's tenth of spend can have, and a share that reaches into that last fil.
   */
  lemma StoredExceedsCapIff(t: Tier, commission: int, monthSpent: nat, current: nat)
    requires current * 100 <= EffectiveCap(t, monthSpent)
    ensures var cap := EffectiveCap(t, monthSpent);
            (current + Stored(Earned(t, commission, monthSpent, current))) * 100 > cap
            <==> cap % 100 >= 50 && current * 100 < cap
                 && Clamp(commission * Percent(t)) >= cap - cap % 100 + 50 - current * 100
    ensures EffectiveCap(t, monthSpent) % 100 != 0 ==> t == PARTNER && monthSpent > 50000_00
  {
    RoundedPastIff(Clamp(commission * Percent(t)), EffectiveCap(t, monthSpent), current);
  }

  /** A PARTNER whose cap is 5000.006: the last reward is stored as 0.02 where 0.016 was left. */
  lemma CapExceeded()
    ensures var t, commission, spent, current := PARTNER, 100_00, 50000_06, 4999_99;
            current * 100 <= EffectiveCap(t, spent) < (current + Stored(Earned(t, commission, spent, current))) * 100
  {
  }

  /** The caps by tier: 2000 AED, 5000 for a VIP, and for a PARTNER 5000 or a tenth of the month if that is more. */
  predicate IsCap(t: Tier, monthSpent: nat, cap: int) {
    && (t in {BASIC, SILVER, GOLD} ==> cap == 2000_00_00) && (t == VIP ==> cap == 5000_00_00)
    && (t == PARTNER ==>
          cap >= 5000_00_00 && cap >= monthSpent * 10 && (cap == 5000_00_00 || cap == monthSpent * 10))
  }

  /**
   * A reward fits under what the cap leaves and under 150 AED. One below both is 2 AED or the tier's share of the
   * commission, whichever is more; the share is two per cent and one more for each tier.
   */
  predicate IsReward(t: Tier, commission: int, cap: int, current: nat, r: int) {
    var left, share := cap - current * 100, commission * (Rank(t) + 1);
    && (left <= 0 ==> r == 0)
    && (left > 0 ==>
          && 0 < r <= left && r <= 150_00_00
          && (r < left ==> r >= 2_00_00)
          && (r < left && r < 150_00_00 ==> r >= share)
          && (r > 2_00_00 ==> r <= share))
  }

  lemma EarnedIsReward(t: Tier, commission: int, monthSpent: nat, current: nat)
    ensures IsCap(t, monthSpent, EffectiveCap(t, monthSpent))
    ensures IsReward(t, commission, EffectiveCap(t, monthSpent), current, Earned(t, commission, monthSpent, current))
  {
    assert Percent(t) == Rank(t) + 1;
  }

  /** And only one amount is such a reward. */
  lemma RewardUnique(t: Tier, commission: int, cap: int, current: nat, r: int, q: int)
    requires IsReward(t, commission, cap, current, r) && IsReward(t, commission, cap, current, q)
    ensures r == q
  {
  }

  /**
   * What a rewarded order does to the customer: a point for each dirham of commission, the order's total to the spend
   * and with it the tier, and the profit, which leaves a row and moves the balance by what it is stored as.
   */
  ghost predicate Gains(c: Customer, o: Order, month: int, monthSpent: nat, after: Customer, profit: nat) {
    && after.points == c.points + Sum(o.payments, CommissionOf()) / 100
    && after.totalSpent == c.totalSpent + Sum(o.payments, TotalOf())
    && Rank(after.tier) == 1 + |set t | t in THRESHOLDS && after.totalSpent >= t|
    && (forall cap, current: nat :: IsCap(c.tier, monthSpent, cap) && current == Sum(c.profits, SinceMonth(month)) ==>
          IsReward(c.tier, Sum(o.payments, CommissionOf()), cap, current, profit))
    && after.balance == c.balance + Stored(profit)
    && after.profits == c.profits + (if profit > 0 then [Profit(month, Stored(profit))] else [])
  }

  lemma CapUnique(t: Tier, monthSpent: nat, cap: int)
    requires IsCap(t, monthSpent, cap)
    ensures cap == EffectiveCap(t, monthSpent)
  {
  }

  lemma GrantGains(c: Customer, o: Order, month: int, monthSpent: nat)
    requires o.completed && o.disputeCount == 0 && o.returnCount == 0 && Sum(o.payments, CommissionOf()) > 0
    ensures 0 <= Sum(c.profits, SinceMonth(month))
    ensures Gains(c, o, month, monthSpent, Granted(c, o, month, monthSpent),
                  Earned(c.tier, Sum(o.payments, CommissionOf()), monthSpent, Sum(c.profits, SinceMonth(month))))
  {
    SumNonNegative(o.payments, TotalOf());
    SumNonNegative(c.profits, SinceMonth(month));
    var current: nat := Sum(c.profits, SinceMonth(month));
    EarnedIsReward(c.tier, Sum(o.payments, CommissionOf()), monthSpent, current);
    TierCountsThresholds(c.totalSpent + OrderTotal(o));
    forall cap | IsCap(c.tier, monthSpent, cap) ensures cap == EffectiveCap(c.tier, monthSpent) {
      CapUnique(c.tier, monthSpent, cap);
    }
  }

  // ---- Tier and spend ---------------------------------------------------------------------------------------

  lemma TierMonotone(x: int, y: int)
    requires x <= y
    ensures Rank(CalculateTier(x)) <= Rank(CalculateTier(y))
  {
  }

  const THRESHOLDS: set<int> := {1000_00, 3000_00, 10000_00, 20000_00}

  /** A tier is how many of the four thresholds the spend has reached. */
  lemma TierCountsThresholds(spent: int)
    ensures Rank(CalculateTier(spent)) == 1 + |set t | t in THRESHOLDS && spent >= t|
  {
    var reached := set t | t in THRESHOLDS && spent >= t;
    assert reached == if spent >= 20000_00 then THRESHOLDS
                      else if spent >= 10000_00 then {1000_00, 3000_00, 10000_00}
                      else if spent >= 3000_00 then {1000_00, 3000_00}
                      else if spent >= 1000_00 then {1000_00} else {};
  }

  lemma TimesMonotone(c: nat, p: nat, q: nat)
    requires p <= q
    ensures c * p <= c * q
  {
    assert c * q == c * p + c * (q - p);
  }

  lemma ClampKeepsOrder(x: int, y: int)
    requires x <= y
    ensures Clamp(x) <= Clamp(y) && (Clamp(x) > MIN_ORDER_REWARD ==> Clamp(x) <= x)
  {
  }

  /**
   * The same order never earns less on a higher tier, nor more than six per cent of its commission once past the
   * minimum.
   */
  lemma HigherTierEarnsNoLess(t: Tier, u: Tier, commission: nat, monthSpent: nat, current: nat)
    requires Rank(t) <= Rank(u)
    ensures Earned(t, commission, monthSpent, current) <= Earned(u, commission, monthSpent, current)
    ensures var earned := Earned(t, commission, monthSpent, current);
            earned > MIN_ORDER_REWARD ==> earned <= commission * 6
  {
    TimesMonotone(commission, Percent(t), Percent(u));
    TimesMonotone(commission, Percent(t), 6);
    ClampKeepsOrder(commission * Percent(t), commission * Percent(u));
  }

  /**
   * A step never lowers the spend; unless it cancels, it keeps the tier at what the spend earns and never lowers it.
   */
  lemma ApplyKeepsTier(c: Customer, e: Event)
    requires c.tier == CalculateTier(c.totalSpent)
    ensures Apply(c, e).totalSpent >= c.totalSpent
    ensures e.Grant? ==> && Apply(c, e).tier == CalculateTier(Apply(c, e).totalSpent)
                         && Rank(Apply(c, e).tier) >= Rank(c.tier)
  {
    if e.Grant? && Rewarded(e.order) {
      SumNonNegative(e.order.payments, TotalOf());
      TierMonotone(c.totalSpent, Apply(c, e).totalSpent);
    }
  }

  lemma {:induction false} RunKeepsTier(c: Customer, events: seq<Event>)
    requires c.tier == CalculateTier(c.totalSpent) && Cancel !in events
    ensures Run(c, events).tier == CalculateTier(Run(c, events).totalSpent)
    ensures Rank(Run(c, events).tier) >= Rank(c.tier)
  {
    if events != [] {
      var n := |events| - 1;
      assert events[n] in events && forall e :: e in events[..n] ==> e in events;
      RunKeepsTier(c, events[..n]);
      ApplyKeepsTier(Run(c, events[..n]), events[n]);
    }
  }

  /** Cancelling lowers the tier exactly when the spend had earned one. */
  lemma CancelLowersIff(c: Customer)
    requires c.tier == CalculateTier(c.totalSpent)
    ensures Rank(Cancelled(c).tier) < Rank(c.tier) <==> c.totalSpent >= 1000_00
    ensures Cancelled(c).balance == c.balance && Cancelled(c).profits == c.profits
            && Cancelled(c).totalSpent == c.totalSpent
  {
  }

  function IsGrant(): Event -> bool { (e: Event) => e.Grant? }

  function SpentIn(): Event -> int {
    (e: Event) => if e.Grant? && Rewarded(e.order) then OrderTotal(e.order) else 0
  }

  lemma {:induction false} RunSpends(c: Customer, events: seq<Event>)
    ensures Run(c, events).totalSpent == c.totalSpent + Sum(events, SpentIn())
  {
    if events != [] { RunSpends(c, events[..|events| - 1]); }
  }

  lemma {:induction false} CancelsSpendNothing(events: seq<Event>)
    ensures Sum(Filter(events, IsGrant()), SpentIn()) == Sum(events, SpentIn())
  {
    if events != [] {
      var n := |events| - 1;
      CancelsSpendNothing(events[..n]);
      SumAppend(Filter(events[..n], IsGrant()), events[n], SpentIn());
    }
  }

  lemma SpendIgnoresCancels(c: Customer, events: seq<Event>)
    ensures Run(c, events).totalSpent == Run(c, Filter(events, IsGrant())).totalSpent
  {
    RunSpends(c, events);
    RunSpends(c, Filter(events, IsGrant()));
    CancelsSpendNothing(events);
  }

  /**
   * A cancelled tier lasts only until the next rewarded order, which gives back the tier of a run that was never
   * cancelled.
   */
  lemma CancelLastsOneGrant(c: Customer, events: seq<Event>, grant: Event)
    requires grant.Grant? && Rewarded(grant.order)
    ensures Run(c, events + [grant]).tier == Run(c, Filter(events, IsGrant()) + [grant]).tier
    ensures Run(c, events + [grant]).tier == CalculateTier(Run(c, events + [grant]).totalSpent)
  {
    var kept := Filter(events, IsGrant());
    SpendIgnoresCancels(c, events);
    assert (events + [grant])[..|events|] == events && (kept + [grant])[..|kept|] == kept;
  }

  /** The balance moves by exactly what the profit rows say. */
  lemma {:induction false} RunBalances(c: Customer, events: seq<Event>)
    ensures Run(c, events).balance - Sum(Run(c, events).profits, AmountOf()) == c.balance - Sum(c.profits, AmountOf())
  {
    if events != [] {
      var n := |events| - 1;
      RunBalances(c, events[..n]);
      var before, e := Run(c, events[..n]), events[n];
      if e.Grant? && Rewarded(e.order) {
        SumNonNegative(before.profits, SinceMonth(e.month));
        var earned := Earned(before.tier, Commission(e.order), e.monthSpent, Sum(before.profits, SinceMonth(e.month)));
        SumAppend(before.profits, Profit(e.month, Stored(earned)), AmountOf());
      }
    }
  }

  // ---- What the program reads and writes besides the customer ----------------------------------------------

  /** A row of the order table, as far as a PARTNER's cap looks at it. */
  datatype PastOrder = PastOrder(customer: nat, completed: bool, createdAt: int, total: nat)

  function SpentSince(customer: nat, start: int): PastOrder -> int {
    (o: PastOrder) => if o.customer == customer && o.completed && o.createdAt >= start then o.total else 0
  }

  function MonthSpent(orders: seq<PastOrder>, customer: nat, start: int): (r: nat) {
    SumNonNegative(orders, SpentSince(customer, start));
    Sum(orders, SpentSince(customer, start))
  }

  /** One more order counts exactly if it is this customer's, completed, and made in the month. */
  lemma MonthSpentCounts(orders: seq<PastOrder>, o: PastOrder, customer: nat, start: int)
    ensures MonthSpent([], customer, start) == 0
    ensures MonthSpent(orders + [o], customer, start)
            == MonthSpent(orders, customer, start)
               + (if o.customer == customer && o.completed && o.createdAt >= start then o.total else 0)
  {
    SumAppend(orders, o, SpentSince(customer, start));
  }

  /** A PARTNER's cap is the floor of 5000 until a tenth of the month's completed orders exceeds it. */
  lemma PartnerCapIff(orders: seq<PastOrder>, customer: nat, start: int)
    ensures var cap := EffectiveCap(PARTNER, MonthSpent(orders, customer, start));
            && cap >= EffectiveCap(VIP, MonthSpent(orders, customer, start)) == 5000_00_00
            && (cap > 5000_00_00 <==> Sum(orders, SpentSince(customer, start)) > 50000_00)
  {
    SumNonNegative(orders, SpentSince(customer, start));
  }

  datatype StoreStats = StoreStats(lifetimeEarnings: int, completedOrders: nat)

  function StoresAfter(stores: map<nat, StoreStats>, o: Order): map<nat, StoreStats> {
    if !Rewarded(o) || o.store.None? || o.store.value !in stores then stores
    else
      var s := stores[o.store.value];
      stores[o.store.value := StoreStats(s.lifetimeEarnings + OrderTotal(o), s.completedOrders + 1)]
  }

  function RunStores(stores: map<nat, StoreStats>, orders: seq<Order>): map<nat, StoreStats> {
    if orders == [] then stores else StoresAfter(RunStores(stores, orders[..|orders| - 1]), orders[|orders| - 1])
  }

  function EarnedAt(k: nat): Order -> int {
    (o: Order) => if Rewarded(o) && o.store == Some(k) then OrderTotal(o) else 0
  }

  function CompletedAt(k: nat): Order -> int {
    (o: Order) => if Rewarded(o) && o.store == Some(k) then 1 else 0
  }

  /** A store's lifetime earnings and completed orders are those of the rewarded orders that name it. */
  lemma {:induction false} StoresCount(stores: map<nat, StoreStats>, orders: seq<Order>, k: nat)
    requires k in stores
    ensures k in RunStores(stores, orders)
    ensures RunStores(stores, orders)[k].lifetimeEarnings == stores[k].lifetimeEarnings + Sum(orders, EarnedAt(k))
    ensures RunStores(stores, orders)[k].completedOrders == stores[k].completedOrders + Sum(orders, CompletedAt(k))
  {
    if orders != [] { StoresCount(stores, orders[..|orders| - 1], k); }
  }

  // ---- The service ------------------------------------------------------------------------------------------

  datatype Reward = Reward(points: int, profit: int, tier: Tier)

  class LoyaltyService {
    var customer: Customer
    var stores: map<nat, StoreStats>

    constructor (customer: Customer, stores: map<nat, StoreStats>)
      ensures this.customer == customer && this.stores == stores
    {
      this.customer := customer;
      this.stores := stores;
    }

    /** `month` is the start of the month; `orders` the order table, `id` the customer's key in it. */
    method GrantOrderCompletionRewards(order: Order, id: nat, month: int, orders: seq<PastOrder>)
      returns (r: Option<Reward>)
      modifies this
      ensures customer == Granted(old(customer), order, month, MonthSpent(orders, id, month))
      ensures stores == StoresAfter(old(stores), order)
      ensures r.Some? <==> order.completed && order.disputeCount == 0 && order.returnCount == 0
                           && Sum(order.payments, CommissionOf()) > 0
      ensures r.None? ==> customer == old(customer) && stores == old(stores)
      ensures r.Some? ==> r.value.profit >= 0
                          && Gains(old(customer), order, month, MonthSpent(orders, id, month), customer, r.value.profit)
      ensures r.Some? ==> r.value.tier == customer.tier && r.value.points == customer.points - old(customer).points
                          && r.value.profit >= 0 && customer.balance - old(customer).balance == Stored(r.value.profit)
    {
      if !(order.completed && order.disputeCount == 0 && order.returnCount == 0) { return None; }
      SumNonNegative(order.payments, CommissionOf());
      SumNonNegative(order.payments, TotalOf());
      SumNonNegative(customer.profits, SinceMonth(month));
      if Commission(order) > 0 { GrantGains(customer, order, month, MonthSpent(orders, id, month)); }
      var totalCommission, orderTotal := Sum(order.payments, CommissionOf()), Sum(order.payments, TotalOf());
      if totalCommission <= 0 { return None; }
      var profit := Clamp(totalCommission * Percent(customer.tier));
      var cap := EffectiveCap(customer.tier, MonthSpent(orders, id, month));
      var current := Sum(customer.profits, SinceMonth(month)) * 100;
      if current >= cap {
        profit := 0;
      } else if current + profit > cap {
        profit := cap - current;
      }
      var points, spent := totalCommission / 100, customer.totalSpent + orderTotal;
      var tier := CalculateTier(spent);
      customer := customer.(totalSpent := spent, tier := tier, points := customer.points + points,
                            balance := customer.balance + Stored(profit));
      if profit > 0 { customer := customer.(profits := customer.profits + [Profit(month, Stored(profit))]); }
      if order.store.Some? && order.store.value in stores {
        var s := stores[order.store.value];
        stores := stores[order.store.value := StoreStats(s.lifetimeEarnings + orderTotal, s.completedOrders + 1)];
      }
      r := Some(Reward(points, profit, tier));
    }

    /** Points and tier go; what was paid, and the spend that earned the tier, stay. */
    method CancelAllRewards() returns (resetPoints: nat, previousTier: Tier)
      modifies this`customer
      ensures resetPoints == old(customer).points && previousTier == old(customer).tier
      ensures customer.points == 0 && customer.tier == BASIC
      ensures customer.balance == old(customer).balance && customer.profits == old(customer).profits
      ensures customer.totalSpent == old(customer).totalSpent
      ensures customer == Run(old(customer), [Cancel])
    {
      resetPoints, previousTier := customer.points, customer.tier;
      assert Run(customer, [Cancel]) == Apply(Run(customer, []), Cancel);
      customer := customer.(points := 0, tier := BASIC);
    }
  }
}
