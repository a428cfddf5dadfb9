/**
 * How often one order is rewarded. Every guarded transition asked to go to COMPLETED triggers the order rewards, which
 * look at the status the transition left behind and have no record of an earlier payment for the order. Other services
 * write the status without the table and without the trigger. The order is one that stays free of disputes and
 * returns, which would end its rewards.
 */
module CompletionRewards {
  import opened Lists
  import opened OrderStates
  import ShipmentLog

  /** A guarded transition finds the accepted offers with or without a warranty; a write asks nobody. */
  datatype Event = Requested(to: OrderStatus, warranty: bool) | Written(status: OrderStatus)

  /** A guarded transition: illegal ones change nothing, and completing under warranty starts the warranty instead. */
  function After(s: OrderStatus, e: Event): OrderStatus {
    match e
    case Requested(to, warranty) =>
      if to !in Allowed(s) then s else if to == COMPLETED && warranty then WARRANTY_ACTIVE else to
    case Written(status) => status
  }

  function Status(s: OrderStatus, events: seq<Event>): OrderStatus {
    if events == [] then s else After(Status(s, events[..|events| - 1]), events[|events| - 1])
  }

  /** What a shipment update writes into its order, whatever the order's status is by then. */
  function WrittenFor(shipment: ShipmentLog.Status): Option<OrderStatus> {
    match shipment
    case PICKED_UP_BY_CARRIER => Some(SHIPPED)
    case DELIVERED_TO_CUSTOMER => Some(DELIVERED)
    case RETURN_COMPLETED_TO_CUSTOMER => Some(COMPLETED)
    case _ => None
  }

  /** A shipment writes its order at three stages only, and the table would allow it from these statuses only. */
  lemma WrittenLegalIff(shipment: ShipmentLog.Status, from: OrderStatus)
    ensures WrittenFor(shipment).Some?
            <==> shipment in {ShipmentLog.PICKED_UP_BY_CARRIER, ShipmentLog.DELIVERED_TO_CUSTOMER,
                              ShipmentLog.RETURN_COMPLETED_TO_CUSTOMER}
    ensures WrittenFor(shipment).Some? && WrittenFor(shipment).value in Allowed(from)
            <==> || (shipment == ShipmentLog.PICKED_UP_BY_CARRIER && from in {PARTIALLY_SHIPPED, READY_FOR_SHIPPING})
                 || (shipment == ShipmentLog.DELIVERED_TO_CUSTOMER && from == SHIPPED)
                 || (shipment == ShipmentLog.RETURN_COMPLETED_TO_CUSTOMER
                     && from in {DELIVERED, WARRANTY_EXPIRED, RETURNED, DISPUTED, RESOLVED})
  {
  }

  // ---- Counting ---------------------------------------------------------------------------------------------

  /** The trigger fires and finds the order COMPLETED. */
  predicate Pays(s: OrderStatus, e: Event) {
    e.Requested? && e.to == COMPLETED && COMPLETED in Allowed(s) && After(s, e) == COMPLETED
  }

  /** The order is completed behind the trigger's back. */
  predicate Sneaks(s: OrderStatus, e: Event) {
    e.Written? && s != COMPLETED && After(s, e) == COMPLETED
  }

  predicate Leaves(s: OrderStatus, e: Event) {
    s == COMPLETED && After(s, e) != COMPLETED
  }

  /** How many events of a run find the order in a status in which p holds of them. */
  function Count(s: OrderStatus, events: seq<Event>, p: (OrderStatus, Event) -> bool): nat {
    if events == [] then 0
    else
      var n := |events| - 1;
      Count(s, events[..n], p) + if p(Status(s, events[..n]), events[n]) then 1 else 0
  }

  function Paying(): (OrderStatus, Event) -> bool { (s: OrderStatus, e: Event) => Pays(s, e) }
  function Sneaking(): (OrderStatus, Event) -> bool { (s: OrderStatus, e: Event) => Sneaks(s, e) }
  function Leaving(): (OrderStatus, Event) -> bool { (s: OrderStatus, e: Event) => Leaves(s, e) }

  function Rewards(s: OrderStatus, events: seq<Event>): nat { Count(s, events, Paying()) }
  function WrittenCompletions(s: OrderStatus, events: seq<Event>): nat { Count(s, events, Sneaking()) }
  function TimesLeft(s: OrderStatus, events: seq<Event>): nat { Count(s, events, Leaving()) }

  function Is(s: OrderStatus): int {
    if s == COMPLETED then 1 else 0
  }

  lemma StepBalances(s: OrderStatus, e: Event)
    ensures (if Pays(s, e) then 1 else 0) + (if Sneaks(s, e) then 1 else 0) + Is(s)
            == (if Leaves(s, e) then 1 else 0) + Is(After(s, e))
  {
  }

  /**
   * Over any mix of guarded transitions and writes: the rewards, with the completions written past the trigger, are the
   * times the order left COMPLETED, by any means, and one more while it is COMPLETED.
   */
  lemma {:induction false} RewardsFollowLeaving(s: OrderStatus, events: seq<Event>)
    ensures Rewards(s, events) + WrittenCompletions(s, events) + Is(s) == TimesLeft(s, events) + Is(Status(s, events))
  {
    if events != [] {
      var n := |events| - 1;
      RewardsFollowLeaving(s, events[..n]);
      StepBalances(Status(s, events[..n]), events[n]);
    }
  }

  ghost predicate UnderWarranty(events: seq<Event>) {
    forall e :: e in events && e.Requested? ==> e.warranty
  }

  /** An order under warranty is never rewarded, and each time it is COMPLETED somebody wrote that past the table. */
  lemma {:induction false} WarrantyNeverRewarded(s: OrderStatus, events: seq<Event>)
    requires UnderWarranty(events)
    ensures Rewards(s, events) == 0
    ensures WrittenCompletions(s, events) + Is(s) == TimesLeft(s, events) + Is(Status(s, events))
  {
    if events != [] {
      var n := |events| - 1;
      assert events[n] in events && forall e :: e in events[..n] ==> e in events;
      WarrantyNeverRewarded(s, events[..n]);
    }
    RewardsFollowLeaving(s, events);
  }

  // ---- A second shipment ------------------------------------------------------------------------------------

  lemma OneMore(events: seq<Event>, e: Event) returns (longer: seq<Event>)
    ensures var s := Status(DELIVERED, events);
            && Status(DELIVERED, longer) == After(s, e)
            && Rewards(DELIVERED, longer) == Rewards(DELIVERED, events) + (if Pays(s, e) then 1 else 0)
    ensures (forall x :: x in events ==> Plain(x)) && Plain(e) ==> forall x :: x in longer ==> Plain(x)
  {
    longer := events + [e];
    assert longer[..|events|] == events;
  }

  /** A completion without warranty, or what a shipment marked as delivered writes. */
  predicate Plain(e: Event) {
    var delivered := WrittenFor(ShipmentLog.DELIVERED_TO_CUSTOMER);
    e == Requested(COMPLETED, false) || (delivered.Some? && e == Written(delivered.value))
  }

  /**
   * From delivery, completions and delivered shipments alone reward the one order any number of times: every further
   * shipment marked as delivered puts the completed order back to DELIVERED.
   */
  lemma {:induction false} RewardedAnyNumber(n: nat) returns (events: seq<Event>)
    requires n >= 1
    ensures Rewards(DELIVERED, events) == n && Status(DELIVERED, events) == COMPLETED
    ensures forall e :: e in events ==> Plain(e)
  {
    if n == 1 {
      events := OneMore([], Requested(COMPLETED, false));
    } else {
      var before := RewardedAnyNumber(n - 1);
      var delivered := OneMore(before, Written(DELIVERED));
      events := OneMore(delivered, Requested(COMPLETED, false));
    }
  }
}
