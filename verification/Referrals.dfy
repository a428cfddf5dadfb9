/**
 * Referral commission: one per cent of each clean order for 180 days, once per referrer and order, and its grouped
 * history.
 */
module Referrals {
  import opened Lists

  const DAY: int := 24 * 60 * 60 * 1000
  const WINDOW: int := 180 * DAY

  /** A REFERRAL_PROFIT credit. Older rows may lack the referred user. */
  datatype Credit = Credit(referrer: nat, order: nat, referee: Option<nat>, amount: int, at: int)
  datatype Account = Account(balance: int, points: int)
  datatype Book = Book(credits: seq<Credit>, accounts: map<nat, Account>)

  /** An order as a trigger finds it. */
  datatype Order = Order(id: nat, customer: nat, referredBy: Option<nat>, startsAt: Option<int>,
                         completed: bool, disputeCount: nat, returnCount: nat, prices: seq<nat>)
  datatype Trigger = Trigger(order: Order, now: int)

  function Price(): nat -> int { (p: nat) => p }

  /** One per cent of the item subtotal, rounded to whole fils. */
  function RewardOf(o: Order): (r: int)
    ensures Sum(o.prices, Price()) - 50 < 100 * r <= Sum(o.prices, Price()) + 50
  {
    (Sum(o.prices, Price()) + 50) / 100
  }

  predicate Rewarded(b: Book, referrer: nat, order: nat) {
    exists c :: c in b.credits && c.referrer == referrer && c.order == order
  }

  predicate InWindow(startsAt: int, now: int) {
    now <= startsAt + WINDOW
  }

  /** When a trigger pays. A referrer whose account is gone makes the transaction fail. */
  predicate Pays(b: Book, t: Trigger) {
    && t.order.referredBy.Some?
    && t.order.completed && t.order.disputeCount == 0 && t.order.returnCount == 0
    && t.order.startsAt.Some? && InWindow(t.order.startsAt.value, t.now)
    && !Rewarded(b, t.order.referredBy.value, t.order.id)
    && RewardOf(t.order) > 0
    && t.order.referredBy.value in b.accounts
  }

  function Processed(b: Book, t: Trigger): Book {
    if !Pays(b, t) then b
    else
      var r, amount := t.order.referredBy.value, RewardOf(t.order);
      Book(b.credits + [Credit(r, t.order.id, Some(t.order.customer), amount, t.now)],
           b.accounts[r := Account(b.accounts[r].balance + amount, b.accounts[r].points + amount / 100)])
  }

  function Run(b: Book, triggers: seq<Trigger>): Book {
    if triggers == [] then b else Processed(Run(b, triggers[..|triggers| - 1]), triggers[|triggers| - 1])
  }

  // ---- Once per referrer and order ----------------------------------------------------------------------------

  ghost predicate OnePerOrder(b: Book) {
    forall i, j :: 0 <= i < j < |b.credits| && b.credits[i].referrer == b.credits[j].referrer
                   ==> b.credits[i].order != b.credits[j].order
  }

  function OfReferrer(user: nat): Credit -> bool { (c: Credit) => c.referrer == user }
  function CreditedTo(user: nat): Credit -> int { (c: Credit) => if c.referrer == user then c.amount else 0 }
  function PointsTo(user: nat): Credit -> int { (c: Credit) => if c.referrer == user then c.amount / 100 else 0 }

  /**
   * Any triggers, repeated or not, leave at most one credit per referrer and order, and every account moved by its
   * credits.
   */
  lemma {:induction false} RunOnePerOrder(b: Book, triggers: seq<Trigger>)
    requires OnePerOrder(b)
    ensures OnePerOrder(Run(b, triggers))
    ensures |b.credits| <= |Run(b, triggers).credits| && Run(b, triggers).credits[..|b.credits|] == b.credits
  {
    if triggers != [] {
      var n := |triggers| - 1;
      RunOnePerOrder(b, triggers[..n]);
      var before, t := Run(b, triggers[..n]), triggers[n];
      if Pays(before, t) {
        forall i | 0 <= i < |before.credits| && before.credits[i].referrer == t.order.referredBy.value
          ensures before.credits[i].order != t.order.id {
          assert before.credits[i] in before.credits;
        }
      }
    }
  }

  /** Balances and points move by exactly what the credits say. */
  lemma {:induction false} RunBalances(b: Book, triggers: seq<Trigger>, user: nat)
    requires user in b.accounts
    ensures user in Run(b, triggers).accounts
    ensures Run(b, triggers).accounts[user].balance - Sum(Run(b, triggers).credits, CreditedTo(user))
            == b.accounts[user].balance - Sum(b.credits, CreditedTo(user))
    ensures Run(b, triggers).accounts[user].points - Sum(Run(b, triggers).credits, PointsTo(user))
            == b.accounts[user].points - Sum(b.credits, PointsTo(user))
  {
    if triggers != [] {
      var n := |triggers| - 1;
      RunBalances(b, triggers[..n], user);
      var before, t := Run(b, triggers[..n]), triggers[n];
      if Pays(before, t) {
        var c := Credit(t.order.referredBy.value, t.order.id, Some(t.order.customer), RewardOf(t.order), t.now);
        SumAppend(before.credits, c, CreditedTo(user));
        SumAppend(before.credits, c, PointsTo(user));
      }
    }
  }

  /**
   * Once an order has paid its referrer, no later trigger for it, whatever the order looks like by then, changes
   * anything.
   */
  lemma {:induction false} PaidOrdersAreSettled(b: Book, t: Trigger, later: seq<Trigger>, again: Trigger)
    requires Pays(b, t) && again.order.id == t.order.id && again.order.referredBy == t.order.referredBy
    ensures Run(Processed(b, t), later + [again]) == Run(Processed(b, t), later)
  {
    var paid := Processed(b, t);
    assert paid.credits[|b.credits|] in paid.credits;
    StaysRewarded(paid, later, t.order.referredBy.value, t.order.id);
    assert (later + [again])[..|later|] == later;
  }

  lemma {:induction false} StaysRewarded(b: Book, triggers: seq<Trigger>, referrer: nat, order: nat)
    requires Rewarded(b, referrer, order)
    ensures Rewarded(Run(b, triggers), referrer, order)
  {
    if triggers != [] {
      var n := |triggers| - 1;
      StaysRewarded(b, triggers[..n], referrer, order);
      var before := Run(b, triggers[..n]);
      var c :| c in before.credits && c.referrer == referrer && c.order == order;
      assert c in Processed(before, triggers[n]).credits;
    }
  }

  // ---- The history -----------------------------------------------------------------------------------------

  datatype Referee = Referee(id: nat, createdAt: int, referralStartsAt: Option<int>)
  datatype Stats = Stats(total: int, orders: nat, lastAt: Option<int>)
  datatype Referral = Referral(id: nat, daysRemaining: int, active: bool, stats: Stats)
  datatype History = History(referrals: seq<Referral>, earned: int, activeCount: nat)

  function StartsAt(r: Referee): int {
    if r.referralStartsAt.Some? then r.referralStartsAt.value else r.createdAt
  }

  function RefereeOf(): Credit -> Option<nat> { (c: Credit) => c.referee }
  function Amount(): Credit -> int { (c: Credit) => c.amount }
  function Names(k: nat): Credit -> bool { (c: Credit) => c.referee == Some(k) }

  /**
   * What the history owes a referee: the sum and the number of the credits naming it, and the latest of their dates.
   */
  ghost predicate Summarises(credits: seq<Credit>, k: nat, s: Stats) {
    && s.total == Sum(credits, WithKey(RefereeOf(), Some(k), Amount()))
    && s.orders == |Filter(credits, Names(k))|
    && (s.lastAt.None? <==> Filter(credits, Names(k)) == [])
    && (s.lastAt.Some? ==>
          && (exists c :: c in credits && c.referee == Some(k) && c.at == s.lastAt.value)
          && (forall c :: c in credits && c.referee == Some(k) ==> c.at <= s.lastAt.value))
  }

  function Added(s: Stats, c: Credit): Stats {
    Stats(s.total + c.amount, s.orders + 1, if s.lastAt.None? || c.at > s.lastAt.value then Some(c.at) else s.lastAt)
  }

  function Looked(m: map<nat, Stats>, k: nat): Stats {
    if k in m then m[k] else Stats(0, 0, None)
  }

  /** One more credit changes the summary of the referee it names and no other. */
  lemma SummaryStep(credits: seq<Credit>, c: Credit, k: nat, s: Stats)
    requires Summarises(credits, k, s)
    ensures Summarises(credits + [c], k, if c.referee == Some(k) then Added(s, c) else s)
  {
    SumAppend(credits, c, WithKey(RefereeOf(), Some(k), Amount()));
    FilterAppend(credits, c, Names(k));
    FilterMembers(credits, Names(k));
    assert forall x :: x in credits && x.referee == Some(k) <==> x in Filter(credits, Names(k));
    assert c in credits + [c];
  }

  function Ids(referees: seq<Referee>): seq<Option<nat>> {
    Map(referees, (r: Referee) => Some(r.id))
  }

  function Earnings(): Referral -> int { (r: Referral) => r.stats.total }
  function Active(): Referral -> bool { (r: Referral) => r.active }

  /** The time left, in whole days rounded up. */
  function DaysRemaining(left: int): int {
    if left > 0 then -(-left / DAY) else 0
  }

  function ReferralFor(r: Referee, stats: Stats, now: int): Referral {
    var left := StartsAt(r) + WINDOW - now;
    Referral(r.id, DaysRemaining(left), left > 0, stats)
  }

  ghost predicate ListsEach(credits: seq<Credit>, referees: seq<Referee>, referrals: seq<Referral>, now: int) {
    && |referrals| == |referees|
    && forall i :: 0 <= i < |referees| ==>
         && referrals[i] == ReferralFor(referees[i], referrals[i].stats, now) && referrals[i].id == referees[i].id
         && Summarises(credits, referees[i].id, referrals[i].stats)
  }

  /** The listed earnings add up to all the credits that name a listed referee. */
  lemma {:induction false} EarningsAreGroups(credits: seq<Credit>, referees: seq<Referee>, referrals: seq<Referral>,
                                             now: int)
    requires ListsEach(credits, referees, referrals, now)
    requires forall i, j :: 0 <= i < j < |referees| ==> referees[i].id != referees[j].id
    ensures Sum(referrals, Earnings()) == Sum(credits, WithKeyIn(RefereeOf(), Ids(referees), Amount()))
  {
    SumAgree(referrals, Ids(referees), Earnings(), GroupTotal(credits, RefereeOf(), Amount()));
    GroupTotalsAddUp(credits, Ids(referees), RefereeOf(), Amount());
  }

  /** A referee shows as active exactly while days remain, and a clean order pays until one instant later. */
  lemma ActiveMeansPaying(r: Referee, stats: Stats, now: int)
    ensures var left, listed := StartsAt(r) + WINDOW - now, ReferralFor(r, stats, now);
            && (listed.active <==> listed.daysRemaining > 0)
            && (InWindow(StartsAt(r), now) <==> listed.active || left == 0)
            && (listed.active ==> (listed.daysRemaining - 1) * DAY < left <= listed.daysRemaining * DAY)
  {
  }

  class LoyaltyService {
    var book: Book

    constructor (book: Book)
      ensures this.book == book
    {
      this.book := book;
    }

    /**
     * Pays exactly for a clean completed order of a referred customer within 180 days, worth half a fil or more, that
     * has not paid yet: one credit, the balance by its amount, the points by its whole dirhams, nothing else.
     */
    method ProcessReferralReward(order: Order, now: int) returns (r: Option<int>)
      modifies this
      ensures book == Processed(old(book), Trigger(order, now))
      ensures r == if Pays(old(book), Trigger(order, now)) then Some(RewardOf(order)) else None
      ensures r.Some?
              <==> && order.completed && order.disputeCount == 0 && order.returnCount == 0
                   && order.referredBy.Some? && order.referredBy.value in old(book).accounts
                   && order.startsAt.Some? && now <= order.startsAt.value + 180 * 24 * 60 * 60 * 1000
                   && Sum(order.prices, Price()) >= 50
                   && forall c :: c in old(book).credits ==>
                        !(c.referrer == order.referredBy.value && c.order == order.id)
      ensures r.None? ==> book == old(book)
      ensures r.Some? ==>
                var referrer := order.referredBy.value;
                && Sum(order.prices, Price()) - 50 < 100 * r.value <= Sum(order.prices, Price()) + 50
                && book.credits == old(book).credits
                                   + [Credit(referrer, order.id, Some(order.customer), r.value, now)]
                && referrer in book.accounts
                && book.accounts[referrer].balance == old(book).accounts[referrer].balance + r.value
                && book.accounts[referrer].points == old(book).accounts[referrer].points + r.value / 100
                && book.accounts - {referrer} == old(book).accounts - {referrer}
    {
      if order.referredBy.None? { return None; }
      if !order.completed || order.disputeCount > 0 || order.returnCount > 0 { return None; }
      if order.startsAt.None? { return None; }
      if now > order.startsAt.value + WINDOW { return None; }
      var referrer := order.referredBy.value;
      if Rewarded(book, referrer, order.id) { return None; }
      var subtotal := Sum(order.prices, Price());
      if subtotal <= 0 { return None; }
      var reward := (subtotal + 50) / 100;
      if reward <= 0 || referrer !in book.accounts { return None; }
      var a := book.accounts[referrer];
      book := Book(book.credits + [Credit(referrer, order.id, Some(order.customer), reward, now)],
                   book.accounts[referrer := Account(a.balance + reward, a.points + reward / 100)]);
      r := Some(reward);
    }

    /** One pass over the referrer's credits, then one line per referee. */
    method GetReferralHistory(user: nat, referees: seq<Referee>, now: int) returns (h: History)
      requires forall i, j :: 0 <= i < j < |referees| ==> referees[i].id != referees[j].id
      ensures ListsEach(Filter(book.credits, OfReferrer(user)), referees, h.referrals, now)
      ensures h.earned == Sum(Filter(book.credits, OfReferrer(user)), WithKeyIn(RefereeOf(), Ids(referees), Amount()))
      ensures h.activeCount == |Filter(h.referrals, Active())|
    {
      var credits := Filter(book.credits, OfReferrer(user));
      var byReferee: map<nat, Stats> := map[];
      var i := 0;
      while i < |credits|
        invariant 0 <= i <= |credits|
        invariant forall k: nat :: Summarises(credits[..i], k, Looked(byReferee, k))
      {
        var c := credits[i];
        ghost var before := byReferee;
        if c.referee.Some? {
          byReferee := byReferee[c.referee.value := Added(Looked(byReferee, c.referee.value), c)];
        }
        assert credits[..i + 1] == credits[..i] + [c];
        forall k: nat ensures Summarises(credits[..i + 1], k, Looked(byReferee, k)) {
          SummaryStep(credits[..i], c, k, Looked(before, k));
        }
        i := i + 1;
      }
      assert credits[..|credits|] == credits;
      var referrals := Map(referees, (r: Referee) => ReferralFor(r, Looked(byReferee, r.id), now));
      EarningsAreGroups(credits, referees, referrals, now);
      h := History(referrals, Sum(referrals, Earnings()), |Filter(referrals, Active())|);
    }
  }
}
