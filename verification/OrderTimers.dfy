/**
 * The minute job that moves orders along when nobody acts, and how long an order can stay in a timed state. Times are
 * milliseconds; a tick is one run of the job.
 */
module OrderTimers {
  import opened Lists
  import opened OrderStates

  const HOUR: int := 60 * 60 * 1000
  const TWO_MINUTES: int := 2 * 60 * 1000

  datatype Order = Order(status: OrderStatus, hasWarranty: bool, revealAt: int, selectionDeadline: Option<int>,
                         paymentDeadline: Option<int>, delayedDeadline: Option<int>, correctionDeadline: Option<int>,
                         updatedAt: int, rejectionCount: nat, documents: nat)

  predicate Expired(deadline: Option<int>, now: int) {
    deadline.Some? && deadline.value < now
  }

  /** The guarded transition: it stamps `updatedAt`, and an illegal one throws and changes nothing. */
  function Transition(o: Order, to: OrderStatus, now: int): Order {
    if to !in Allowed(o.status) then o
    else o.(status := if to == COMPLETED && o.hasWarranty then WARRANTY_ACTIVE else to,
            updatedAt := now,
            selectionDeadline := if to == AWAITING_SELECTION then Some(now + 24 * HOUR) else o.selectionDeadline)
  }

  // ---- The seven jobs, order by order -----------------------------------------------------------------

  function Reveal(now: int): Order -> Order {
    (o: Order) =>
      if o.status == COLLECTING_OFFERS && o.revealAt <= now then Transition(o, AWAITING_SELECTION, now) else o
  }

  function ExpireSelection(now: int): Order -> Order {
    (o: Order) =>
      if o.status == AWAITING_SELECTION && Expired(o.selectionDeadline, now) then Transition(o, CANCELLED, now) else o
  }

  function ExpirePayment(now: int): Order -> Order {
    (o: Order) =>
      if o.status == AWAITING_PAYMENT
         && (Expired(o.paymentDeadline, now) || (o.paymentDeadline == None && o.updatedAt < now - 24 * HOUR))
      then Transition(o, CANCELLED, now) else o
  }

  /** No payment ever has the status `COMPLETED` the query asks for, so the clock is always `updatedAt`. */
  function DelayPreparation(now: int): Order -> Order {
    (o: Order) =>
      if o.status == PREPARATION && now > o.updatedAt + 48 * HOUR
      then Transition(o, DELAYED_PREPARATION, now).(delayedDeadline := Some(now + 24 * HOUR)) else o
  }

  function FailPreparation(now: int): Order -> Order {
    (o: Order) =>
      if o.status == DELAYED_PREPARATION && Expired(o.delayedDeadline, now) then Transition(o, CANCELLED, now) else o
  }

  function StartCorrection(now: int): Order -> Order {
    (o: Order) =>
      if o.status == NON_MATCHING && o.updatedAt < now - TWO_MINUTES then Transition(o, CORRECTION_PERIOD, now) else o
  }

  function ExpireCorrection(now: int): Order -> Order {
    (o: Order) =>
      if o.status == CORRECTION_PERIOD && Expired(o.correctionDeadline, now) then Transition(o, CANCELLED, now) else o
  }

  function SevenJobs(o: Order, now: int): Order {
    ExpireCorrection(now)(StartCorrection(now)(FailPreparation(now)(DelayPreparation(now)(
      ExpirePayment(now)(ExpireSelection(now)(Reveal(now)(o)))))))
  }

  /** What one tick amounts to: the jobs run in sequence, but at most two of them touch the same order. */
  function Tick(o: Order, now: int): Order {
    match o.status
    case COLLECTING_OFFERS =>
      if o.revealAt <= now
      then o.(status := AWAITING_SELECTION, updatedAt := now, selectionDeadline := Some(now + 24 * HOUR)) else o
    case AWAITING_SELECTION => if Expired(o.selectionDeadline, now) then Cancelled(o, now) else o
    case AWAITING_PAYMENT =>
      if Expired(o.paymentDeadline, now) || (o.paymentDeadline == None && o.updatedAt < now - 24 * HOUR)
      then Cancelled(o, now) else o
    case PREPARATION =>
      if now > o.updatedAt + 48 * HOUR
      then o.(status := DELAYED_PREPARATION, updatedAt := now, delayedDeadline := Some(now + 24 * HOUR)) else o
    case DELAYED_PREPARATION => if Expired(o.delayedDeadline, now) then Cancelled(o, now) else o
    case NON_MATCHING =>
      if !(o.updatedAt < now - TWO_MINUTES) then o
      else if Expired(o.correctionDeadline, now) then Cancelled(o, now)
      else o.(status := CORRECTION_PERIOD, updatedAt := now)
    case CORRECTION_PERIOD => if Expired(o.correctionDeadline, now) then Cancelled(o, now) else o
    case _ => o
  }

  function Cancelled(o: Order, now: int): Order {
    o.(status := CANCELLED, updatedAt := now)
  }

  lemma OfferJobs(o: Order, now: int)
    ensures ExpirePayment(now)(ExpireSelection(now)(Reveal(now)(o)))
            == if o.status in {COLLECTING_OFFERS, AWAITING_SELECTION, AWAITING_PAYMENT} then Tick(o, now) else o
  {
  }

  lemma PreparationJobs(o: Order, now: int)
    ensures FailPreparation(now)(DelayPreparation(now)(o))
            == if o.status in {PREPARATION, DELAYED_PREPARATION} then Tick(o, now) else o
  {
  }

  lemma CorrectionJobs(o: Order, now: int)
    ensures ExpireCorrection(now)(StartCorrection(now)(o))
            == if o.status in {NON_MATCHING, CORRECTION_PERIOD} then Tick(o, now) else o
  {
  }

  lemma SevenJobsAreOneTick(o: Order, now: int)
    ensures SevenJobs(o, now) == Tick(o, now)
  {
    OfferJobs(o, now);
    var offers := ExpirePayment(now)(ExpireSelection(now)(Reveal(now)(o)));
    PreparationJobs(offers, now);
    CorrectionJobs(FailPreparation(now)(DelayPreparation(now)(offers)), now);
  }

  class OrderCleanupService {
    var orders: seq<Order>

    constructor (orders: seq<Order>)
      ensures this.orders == orders
    {
      this.orders := orders;
    }

    /** One job: the due orders of the table, one after the other. */
    method RunJob(job: Order -> Order)
      modifies this
      ensures orders == Map(old(orders), job)
    {
      var i := 0;
      while i < |orders|
        invariant 0 <= i <= |orders| == |old(orders)|
        invariant forall j :: 0 <= j < |orders| ==> orders[j] == if j < i then job(old(orders)[j]) else old(orders)[j]
      {
        orders := orders[i := job(orders[i])];
        i := i + 1;
      }
    }

    method HandleCron(now: int)
      modifies this
      ensures |orders| == |old(orders)| && forall i :: 0 <= i < |orders| ==> orders[i] == Tick(old(orders)[i], now)
      ensures forall i :: 0 <= i < |orders| && old(orders)[i].status == AWAITING_PAYMENT ==>
                var o := old(orders)[i];
                (if orders[i].status == CANCELLED then orders[i] == o.(status := CANCELLED, updatedAt := now)
                 else orders[i] == o)
                && (orders[i].status == CANCELLED
                    <==> if o.paymentDeadline.Some? then o.paymentDeadline.value < now
                         else o.updatedAt + 24 * 60 * 60 * 1000 < now)
    {
      RunJob(Reveal(now));
      RunJob(ExpireSelection(now));
      RunJob(ExpirePayment(now));
      RunJob(DelayPreparation(now));
      RunJob(FailPreparation(now));
      RunJob(StartCorrection(now));
      RunJob(ExpireCorrection(now));
      forall i | 0 <= i < |orders| ensures orders[i] == Tick(old(orders)[i], now) {
        SevenJobsAreOneTick(old(orders)[i], now);
      }
    }
  }

  // ---- Runs of ticks -----------------------------------------------------------------------------------

  /** The order after a run of ticks in which nobody acts on it. */
  function Ticks(o: Order, ticks: seq<int>): Order {
    if ticks == [] then o else Tick(Ticks(o, ticks[..|ticks| - 1]), ticks[|ticks| - 1])
  }

  /** The moment the order was last looked at. */
  function Last(start: int, ticks: seq<int>): int {
    if ticks == [] then start else ticks[|ticks| - 1]
  }

  /** Ticks in order, none before `start`. */
  ghost predicate Ordered(start: int, ticks: seq<int>) {
    forall i :: 0 <= i < |ticks| ==> Last(start, ticks[..i]) <= ticks[i]
  }

  /** At most `gap` from `start` to the first tick and from each tick to the next. */
  ghost predicate Regular(start: int, ticks: seq<int>, gap: int) {
    forall i :: 0 <= i < |ticks| ==> ticks[i] - Last(start, ticks[..i]) <= gap
  }

  lemma Shorter(start: int, ticks: seq<int>, gap: int)
    requires ticks != [] && Ordered(start, ticks)
    ensures var n := |ticks| - 1;
            Ordered(start, ticks[..n]) && Last(start, ticks[..n]) <= ticks[n]
            && (Regular(start, ticks, gap) ==>
                  Regular(start, ticks[..n], gap) && ticks[n] - Last(start, ticks[..n]) <= gap)
  {
    var n := |ticks| - 1;
    forall i | 0 <= i < n ensures ticks[..n][..i] == ticks[..i] {}
  }

  lemma {:induction false} StartsFirst(start: int, ticks: seq<int>)
    requires Ordered(start, ticks)
    ensures start <= Last(start, ticks)
  {
    if ticks != [] {
      Shorter(start, ticks, 0);
      StartsFirst(start, ticks[..|ticks| - 1]);
    }
  }

  // ---- An order waiting for one deadline -----------------------------------------------------------------

  ghost predicate CancelledAfter(o: Order, start: int, ticks: seq<int>, due: int) {
    if ticks != [] && Last(start, ticks) > due then Ticks(o, ticks).status == CANCELLED else Ticks(o, ticks) == o
  }

  lemma {:induction false} OneDeadline(o: Order, start: int, ticks: seq<int>, due: int)
    requires Ordered(start, ticks)
    requires forall now: int :: Tick(o, now) == if now > due then Cancelled(o, now) else o
    ensures CancelledAfter(o, start, ticks, due)
  {
    if ticks != [] {
      Shorter(start, ticks, 0);
      OneDeadline(o, start, ticks[..|ticks| - 1], due);
    }
  }

  /**
   * An unpaid order is cancelled by the first tick after its payment deadline and by none before, however the ticks
   * fall; without a deadline the 24 hours since its last update count. Until then it is left as it is.
   */
  lemma UnpaidEndsAtDeadline(o: Order, start: int, ticks: seq<int>)
    requires o.status == AWAITING_PAYMENT && Ordered(start, ticks)
    ensures o.paymentDeadline.Some? ==>
              (Ticks(o, ticks).status == CANCELLED <==> ticks != [] && Last(start, ticks) > o.paymentDeadline.value)
    ensures o.paymentDeadline.None? ==>
              (Ticks(o, ticks).status == CANCELLED
               <==> ticks != [] && Last(start, ticks) > o.updatedAt + 24 * 60 * 60 * 1000)
    ensures Ticks(o, ticks).status != CANCELLED ==> Ticks(o, ticks) == o
  {
    OneDeadline(o, start, ticks,
                if o.paymentDeadline.Some? then o.paymentDeadline.value else o.updatedAt + 24 * HOUR);
  }

  lemma {:induction false} NeverTouched(o: Order, ticks: seq<int>)
    requires forall now: int :: Tick(o, now) == o
    ensures Ticks(o, ticks) == o
  {
    if ticks != [] { NeverTouched(o, ticks[..|ticks| - 1]); }
  }

  function DeadlineOf(o: Order): Option<int> {
    match o.status
    case AWAITING_SELECTION => o.selectionDeadline
    case DELAYED_PREPARATION => o.delayedDeadline
    case CORRECTION_PERIOD => o.correctionDeadline
    case _ => None
  }

  /** The other three waits have a deadline and no fallback: none set, never cancelled. */
  lemma WaitEndsAtDeadline(o: Order, start: int, ticks: seq<int>)
    requires o.status in {AWAITING_SELECTION, DELAYED_PREPARATION, CORRECTION_PERIOD} && Ordered(start, ticks)
    ensures Ticks(o, ticks).status == CANCELLED
            <==> DeadlineOf(o).Some? && ticks != [] && Last(start, ticks) > DeadlineOf(o).value
    ensures Ticks(o, ticks).status != CANCELLED ==> Ticks(o, ticks) == o
  {
    if DeadlineOf(o).Some? { OneDeadline(o, start, ticks, DeadlineOf(o).value); } else { NeverTouched(o, ticks); }
  }

  /** No other status than the seven is ever touched. */
  lemma OthersAreLeftAlone(o: Order, ticks: seq<int>)
    requires o.status !in {COLLECTING_OFFERS, AWAITING_SELECTION, AWAITING_PAYMENT, PREPARATION, DELAYED_PREPARATION,
                           NON_MATCHING, CORRECTION_PERIOD}
    ensures Ticks(o, ticks) == o
  {
    NeverTouched(o, ticks);
  }

  // ---- An order nobody selects an offer for ------------------------------------------------------------

  function Created(t0: int, hasWarranty: bool): Order {
    Order(COLLECTING_OFFERS, hasWarranty, t0 + 24 * HOUR, None, None, None, None, t0, 0, 0)
  }

  /** Where an untouched order can be when last looked at at `now`. */
  ghost predicate UnselectedPhase(o: Order, t0: int, now: int) {
    || (o.status == COLLECTING_OFFERS && o.revealAt == t0 + 24 * HOUR && now < t0 + 24 * HOUR)
    || (o.status == AWAITING_SELECTION && o.selectionDeadline.Some? && now <= o.selectionDeadline.value
        && t0 + 48 * HOUR <= o.selectionDeadline.value)
    || (o.status == CANCELLED && now > t0 + 48 * HOUR)
  }

  lemma {:induction false} UnselectedPhases(t0: int, w: bool, ticks: seq<int>, gap: int)
    requires Ordered(t0, ticks)
    ensures UnselectedPhase(Ticks(Created(t0, w), ticks), t0, Last(t0, ticks))
    ensures Regular(t0, ticks, gap) && Ticks(Created(t0, w), ticks).status == AWAITING_SELECTION
            ==> Ticks(Created(t0, w), ticks).selectionDeadline.value < t0 + 48 * HOUR + gap
  {
    if ticks != [] {
      Shorter(t0, ticks, gap);
      UnselectedPhases(t0, w, ticks[..|ticks| - 1], gap);
    }
  }

  /** The tick that cancels an unselected order comes after 48 hours and before 48 hours plus two tick gaps. */
  lemma UnselectedWindow(t0: int, w: bool, ticks: seq<int>, gap: int)
    requires ticks != [] && Ordered(t0, ticks) && Regular(t0, ticks, gap)
    requires Ticks(Created(t0, w), ticks).status == CANCELLED
    requires Ticks(Created(t0, w), ticks[..|ticks| - 1]).status != CANCELLED
    ensures t0 + 48 * HOUR < Last(t0, ticks) < t0 + 48 * HOUR + 2 * gap
  {
    Shorter(t0, ticks, gap);
    UnselectedPhases(t0, w, ticks, gap);
    UnselectedPhases(t0, w, ticks[..|ticks| - 1], gap);
  }

  /** And there is such a tick: whoever looks after 48 hours plus one gap finds the order cancelled. */
  lemma UnselectedEnds(t0: int, w: bool, ticks: seq<int>, gap: int)
    requires Ordered(t0, ticks) && Regular(t0, ticks, gap) && Last(t0, ticks) >= t0 + 48 * HOUR + gap
    requires ticks != []
    ensures Ticks(Created(t0, w), ticks).status == CANCELLED
  {
    UnselectedPhases(t0, w, ticks, gap);
    Shorter(t0, ticks, gap);
  }

  // ---- An order nobody prepares ------------------------------------------------------------------------

  function Later(a: int, b: int): int {
    if a < b then b else a
  }

  /** The order entered PREPARATION at `entered`; its clock `updatedAt` may be older. */
  ghost predicate Waiting(o: Order, entered: int) {
    o.status == PREPARATION && o.updatedAt <= entered
  }

  ghost predicate PreparationPhase(o: Order, first: Order, entered: int, now: int) {
    var due := Later(entered, first.updatedAt + 48 * HOUR + 1);
    || (o == first && (now == entered || now <= first.updatedAt + 48 * HOUR))
    || (o.status == DELAYED_PREPARATION && o.delayedDeadline.Some? && due + 24 * HOUR <= o.delayedDeadline.value
        && now <= o.delayedDeadline.value)
    || (o.status == CANCELLED && due + 24 * HOUR < now)
  }

  lemma PreparationStep(o: Order, first: Order, entered: int, now: int, next: int)
    requires Waiting(first, entered) && PreparationPhase(o, first, entered, now) && entered <= now <= next
    ensures PreparationPhase(Tick(o, next), first, entered, next)
  {
  }

  ghost predicate DelayBounded(o: Order, first: Order, entered: int, gap: int) {
    o.status == DELAYED_PREPARATION ==>
      && o.delayedDeadline.Some?
      && o.delayedDeadline.value <= Later(entered, first.updatedAt + 48 * HOUR) + 24 * HOUR + gap
  }

  lemma DelayStep(o: Order, first: Order, entered: int, now: int, next: int, gap: int)
    requires Waiting(first, entered) && PreparationPhase(o, first, entered, now) && entered <= now <= next <= now + gap
    requires DelayBounded(o, first, entered, gap)
    ensures DelayBounded(Tick(o, next), first, entered, gap)
  {
  }

  lemma {:induction false} PreparationPhases(o: Order, entered: int, ticks: seq<int>, gap: int)
    requires Waiting(o, entered) && Ordered(entered, ticks)
    ensures PreparationPhase(Ticks(o, ticks), o, entered, Last(entered, ticks))
    ensures Regular(entered, ticks, gap) ==> DelayBounded(Ticks(o, ticks), o, entered, gap)
  {
    if ticks != [] {
      var n := |ticks| - 1;
      var before, last := Ticks(o, ticks[..n]), Last(entered, ticks[..n]);
      Shorter(entered, ticks, gap);
      PreparationPhases(o, entered, ticks[..n], gap);
      StartsFirst(entered, ticks[..n]);
      PreparationStep(before, o, entered, last, ticks[n]);
      if Regular(entered, ticks, gap) { DelayStep(before, o, entered, last, ticks[n], gap); }
    }
  }

  /**
   * The tick that cancels an unprepared order: 24 hours after the later of entry and `updatedAt` + 48 hours, within
   * two gaps.
   */
  lemma PreparationWindow(o: Order, entered: int, ticks: seq<int>, gap: int)
    requires Waiting(o, entered) && ticks != [] && Ordered(entered, ticks) && Regular(entered, ticks, gap)
    requires Ticks(o, ticks).status == CANCELLED && Ticks(o, ticks[..|ticks| - 1]).status != CANCELLED
    ensures var due := Later(entered, o.updatedAt + 48 * HOUR);
            due + 24 * HOUR < Last(entered, ticks) <= due + 24 * HOUR + 2 * gap
  {
    Shorter(entered, ticks, gap);
    PreparationPhases(o, entered, ticks, gap);
    PreparationPhases(o, entered, ticks[..|ticks| - 1], gap);
  }

  lemma PreparationEnds(o: Order, entered: int, ticks: seq<int>, gap: int)
    requires Waiting(o, entered) && Ordered(entered, ticks) && Regular(entered, ticks, gap) && ticks != [] && gap >= 0
    requires Last(entered, ticks) > Later(entered, o.updatedAt + 48 * HOUR) + 24 * HOUR + gap
    ensures Ticks(o, ticks).status == CANCELLED
  {
    PreparationPhases(o, entered, ticks, gap);
  }

  /** Every run that cancels the order does so later than 72 hours after it entered PREPARATION. */
  ghost predicate Keeps72Hours(o: Order, entered: int) {
    forall ticks: seq<int> :: Ordered(entered, ticks) && Ticks(o, ticks).status == CANCELLED ==>
           Last(entered, ticks) > entered + 72 * HOUR
  }

  /**
   * A guarded transition into PREPARATION sets `updatedAt` to the entry time; the payment webhook sets the status
   * alone. The 72 hours are kept exactly when the clock is at most one millisecond older than the entry.
   */
  lemma Keeps72HoursIff(o: Order, entered: int)
    requires Waiting(o, entered)
    ensures Keeps72Hours(o, entered) <==> o.updatedAt >= entered - 1
  {
    if o.updatedAt >= entered - 1 {
      forall ticks: seq<int> | Ordered(entered, ticks) && Ticks(o, ticks).status == CANCELLED
        ensures Last(entered, ticks) > entered + 72 * HOUR
      {
        PreparationPhases(o, entered, ticks, 0);
      }
    } else {
      var ticks := CutShort(o, entered);
    }
  }

  lemma CutShort(o: Order, entered: int) returns (ticks: seq<int>)
    requires Waiting(o, entered) && o.updatedAt < entered - 1
    ensures Ordered(entered, ticks) && Ticks(o, ticks).status == CANCELLED
            && Last(entered, ticks) <= entered + 72 * HOUR
  {
    var due := Later(entered, o.updatedAt + 48 * HOUR + 1);
    ticks := [due, due + 24 * HOUR + 1];
    assert ticks[..1] == [due] && ticks[..0] == [] && [due][..0] == [];
    assert Ticks(o, []) == o;
    var delayed := Ticks(o, [due]);
    assert delayed == Tick(o, due);
    assert delayed.status == DELAYED_PREPARATION && delayed.delayedDeadline == Some(due + 24 * HOUR);
    assert Ticks(o, ticks) == Tick(delayed, due + 24 * HOUR + 1);
  }

  // ---- A rejected order nobody corrects ----------------------------------------------------------------

  /**
   * Just rejected at `rejected`: the deadline is set then, while `updatedAt` is still that of the last guarded
   * transition.
   */
  ghost predicate Rejected(o: Order, rejected: int) {
    o.status == NON_MATCHING && o.updatedAt <= rejected && o.correctionDeadline == Some(rejected + 48 * HOUR)
  }

  ghost predicate CorrectionPhase(o: Order, rejected: int, now: int) {
    if now > rejected + 48 * HOUR then o.status == CANCELLED
    else o.status in {NON_MATCHING, CORRECTION_PERIOD} && o.correctionDeadline == Some(rejected + 48 * HOUR)
         && (o.status == NON_MATCHING ==> o.updatedAt <= rejected)
  }

  lemma CorrectionStep(o: Order, rejected: int, now: int, next: int)
    requires CorrectionPhase(o, rejected, now) && now <= next
    ensures CorrectionPhase(Tick(o, next), rejected, next)
  {
  }

  /** However the ticks fall, an uncorrected order is cancelled by the first one after 48 hours and by none before. */
  lemma {:induction false} CorrectionEndsAt48Hours(o: Order, rejected: int, ticks: seq<int>)
    requires Rejected(o, rejected) && Ordered(rejected, ticks)
    ensures Ticks(o, ticks).status == CANCELLED <==> Last(rejected, ticks) > rejected + 48 * HOUR
    ensures CorrectionPhase(Ticks(o, ticks), rejected, Last(rejected, ticks))
  {
    if ticks != [] {
      var n := |ticks| - 1;
      Shorter(rejected, ticks, 0);
      CorrectionEndsAt48Hours(o, rejected, ticks[..n]);
      CorrectionStep(Ticks(o, ticks[..n]), rejected, Last(rejected, ticks[..n]), ticks[n]);
    }
  }
  /** A rejected order moves on to its correction period by the first tick later than two minutes after its update. */
  lemma {:induction false} CorrectionStarts(o: Order, rejected: int, ticks: seq<int>)
    requires Rejected(o, rejected) && Ordered(rejected, ticks)
    ensures Ticks(o, ticks).status == CORRECTION_PERIOD
            <==> ticks != [] && o.updatedAt + 2 * 60 * 1000 < Last(rejected, ticks) <= rejected + 48 * 60 * 60 * 1000
    ensures Ticks(o, ticks).status == NON_MATCHING ==> Ticks(o, ticks) == o
  {
    CorrectionEndsAt48Hours(o, rejected, ticks);
    if ticks != [] {
      Shorter(rejected, ticks, 0);
      CorrectionStarts(o, rejected, ticks[..|ticks| - 1]);
      CorrectionEndsAt48Hours(o, rejected, ticks[..|ticks| - 1]);
    }
  }
}
