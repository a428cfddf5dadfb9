/**
 * Shipping from the assembly cart: the requested offers are grouped by order, each group is put on a shipment and
 * flagged, and its order is moved through the guarded transition. A group that throws keeps what it had written.
 */
module PartialShipping {
  import opened Lists
  import opened OrderStates
  import ShipmentLog

  datatype Offer = Offer(order: nat, accepted: bool, shipped: bool, shipment: Option<nat>)
  datatype Order = Order(customer: nat, status: OrderStatus, hasWarranty: bool, updatedAt: int)
  datatype Cart = Cart(offers: seq<Offer>, orders: seq<Order>, desk: ShipmentLog.Desk)

  /** What a call meets outside the database: the time, and for which orders the shipment can be made. */
  datatype Env = Env(now: int, createOk: nat -> bool)

  datatype GroupResult = Shipped(order: nat, count: nat) | Failed(order: nat)

  const SHIPPABLE: set<OrderStatus> := {PREPARATION, PARTIALLY_SHIPPED, VERIFICATION_SUCCESS}

  ghost predicate WellFormed(c: Cart) {
    forall e :: 0 <= e < |c.offers| ==> c.offers[e].order < |c.orders|
  }

  predicate Pending(c: Cart, e: nat) {
    e < |c.offers| && c.offers[e].accepted && !c.offers[e].shipped
  }

  /**
   * What one call may ship: pending offers asked for by id or through their order, of this customer, in a shippable
   * order.
   */
  predicate Requested(c: Cart, customer: nat, orderIds: set<nat>, offerIds: set<nat>, e: nat) {
    && Pending(c, e) && c.offers[e].order < |c.orders|
    && (e in offerIds || c.offers[e].order in orderIds)
    && c.orders[c.offers[e].order].customer == customer
    && c.orders[c.offers[e].order].status in SHIPPABLE
  }

  function Valid(c: Cart, customer: nat, orderIds: set<nat>, offerIds: set<nat>): set<nat> {
    set e | 0 <= e < |c.offers| && Requested(c, customer, orderIds, offerIds, e)
  }

  // ---- The effect of shipping a set of offers ------------------------------------------------------------

  function InOrder(c: Cart, batch: set<nat>, o: nat): set<nat> {
    set e | e in batch && e < |c.offers| && c.offers[e].order == o
  }

  /** The order's pending offers once the batch is flagged. */
  function Remaining(c: Cart, batch: set<nat>, o: nat): set<nat> {
    set e | 0 <= e < |c.offers| && Pending(c, e) && c.offers[e].order == o && e !in batch
  }

  /** Whether a group gets through: its shipment is made, and the table allows where its order has to go. */
  predicate GroupSucceeds(c: Cart, batch: set<nat>, o: nat, env: Env) {
    && o < |c.orders| && env.createOk(o)
    && (if Remaining(c, batch, o) == {} then SHIPPED in Allowed(c.orders[o].status)
        else c.orders[o].status == PARTIALLY_SHIPPED || PARTIALLY_SHIPPED in Allowed(c.orders[o].status))
  }

  function OrderAfter(c: Cart, batch: set<nat>, o: nat, env: Env): Order
    requires o < |c.orders|
  {
    var order := c.orders[o];
    if InOrder(c, batch, o) == {} || !GroupSucceeds(c, batch, o, env) then order
    else if Remaining(c, batch, o) == {} then order.(status := SHIPPED, updatedAt := env.now)
    else if order.status == PARTIALLY_SHIPPED then order
    else order.(status := PARTIALLY_SHIPPED, updatedAt := env.now)
  }

  /** No shipment leaves the desk, and none that was there changes. */
  ghost predicate Grew(before: ShipmentLog.Desk, after: ShipmentLog.Desk) {
    |before.shipments| <= |after.shipments| && after.shipments[..|before.shipments|] == before.shipments
  }

  /**
   * Offers of the batch whose shipment was made are flagged, on a shipment of their order; orders move group by
   * group.
   */
  ghost predicate ShipsBatch(before: Cart, after: Cart, batch: set<nat>, env: Env) {
    && |after.offers| == |before.offers| && |after.orders| == |before.orders|
    && Grew(before.desk, after.desk)
    && (forall e :: 0 <= e < |before.offers| ==> OfferAfter(before, after, batch, env, e))
    && (forall o :: 0 <= o < |before.orders| ==> after.orders[o] == OrderAfter(before, batch, o, env))
  }

  ghost predicate OfferAfter(before: Cart, after: Cart, batch: set<nat>, env: Env, e: nat)
    requires e < |before.offers| == |after.offers|
  {
    var o := before.offers[e].order;
    if e in batch && env.createOk(o) then
      && after.offers[e].shipment.Some?
      && after.offers[e] == before.offers[e].(shipped := true, shipment := after.offers[e].shipment)
      && after.offers[e].shipment.value < |after.desk.shipments|
         && after.desk.shipments[after.offers[e].shipment.value].order == o
    else after.offers[e] == before.offers[e]
  }

  /** The offers that count: those whose group did not fail. */
  function Counted(c: Cart, batch: set<nat>, env: Env): set<nat> {
    set e | e in batch && e < |c.offers| && GroupSucceeds(c, batch, c.offers[e].order, env)
  }

  /** Whether the ids name anything to look up at all; a call that names nothing is answered without an error. */
  predicate NamesSomething(c: Cart, customer: nat, orderIds: set<nat>, offerIds: set<nat>) {
    || offerIds != {}
    || exists e :: 0 <= e < |c.offers| && Pending(c, e) && c.offers[e].order in orderIds
                   && c.offers[e].order < |c.orders| && c.orders[c.offers[e].order].customer == customer
  }

  /** The valid offers in table order, each once. */
  function ValidRows(c: Cart, customer: nat, orderIds: set<nat>, offerIds: set<nat>, n: nat): (r: seq<nat>)
    requires n <= |c.offers|
    ensures forall e: nat :: e in r <==> e < n && Requested(c, customer, orderIds, offerIds, e)
    ensures forall i, j :: 0 <= i < j < |r| ==> r[i] < r[j]
  {
    if n == 0 then []
    else
      var rows := ValidRows(c, customer, orderIds, offerIds, n - 1);
      assert forall i :: 0 <= i < |rows| ==> rows[i] in rows;
      if Requested(c, customer, orderIds, offerIds, n - 1) then rows + [n - 1] else rows
  }

  function Elements(s: seq<nat>): set<nat> {
    set e | e in s
  }

  lemma {:induction false} ElementsSize(s: seq<nat>)
    requires Distinct(s)
    ensures |Elements(s)| == |s|
  {
    if s != [] {
      var n := |s| - 1;
      ElementsSize(s[..n]);
      assert s == s[..n] + [s[n]];
      assert Elements(s) == Elements(s[..n]) + {s[n]};
    }
  }

  /**
   * Under the transition table a group gets through exactly from PREPARATION with something left behind, or from
   * PARTIALLY_SHIPPED.
   */
  lemma GroupSucceedsIff(c: Cart, batch: set<nat>, o: nat, env: Env)
    requires o < |c.orders| && c.orders[o].status in SHIPPABLE && env.createOk(o)
    ensures GroupSucceeds(c, batch, o, env)
            <==> || c.orders[o].status == PARTIALLY_SHIPPED
                 || (c.orders[o].status == PREPARATION && Remaining(c, batch, o) != {})
  {
  }

  /**
   * Shipping a whole cart at once from PREPARATION: every offer is flagged and put on a shipment, yet the call reports
   * nothing shipped and the order stays in PREPARATION, since the table has no edge from there to SHIPPED.
   */
  lemma WholeCartAtOnce(before: Cart, after: Cart, batch: set<nat>, o: nat, env: Env)
    requires WellFormed(before) && ShipsBatch(before, after, batch, env) && o < |before.orders| && env.createOk(o)
    requires before.orders[o].status == PREPARATION && batch == Remaining(before, {}, o) && batch != {}
    ensures after.orders[o].status == PREPARATION && Counted(before, batch, env) == {}
    ensures forall e :: e in batch ==> after.offers[e].shipped
  {
    assert Remaining(before, batch, o) == {};
    forall e | e in batch
           ensures after.offers[e].shipped && !GroupSucceeds(before, batch, before.offers[e].order, env) {
      assert OfferAfter(before, after, batch, env, e);
    }
  }

  // ---- Over many calls -------------------------------------------------------------------------------------

  datatype Call =
    | Ship(customer: nat, orderIds: set<nat>, offerIds: set<nat>, env: Env)
    | Elsewhere

  function BatchOf(c: Cart, call: Call): set<nat>
    requires call.Ship?
  {
    Valid(c, call.customer, call.orderIds, call.offerIds)
  }

  /** A call flags and ships an offer: it picked the offer, and the shipment of the offer's order could be made. */
  predicate Ships(c: Cart, call: Call, e: nat) {
    call.Ship? && e in BatchOf(c, call) && e < |c.offers| && call.env.createOk(c.offers[e].order)
  }

  /**
   * What is done elsewhere may add offers and shipments and change any order or shipment status, but it neither flags
   * nor unflags nor reships an offer, and it leaves every shipment on its order.
   */
  ghost predicate Next(before: Cart, call: Call, after: Cart) {
    if call.Ship? then ShipsBatch(before, after, BatchOf(before, call), call.env)
    else
      && |before.offers| <= |after.offers| && ShipmentLog.KeepsOrders(before.desk, after.desk)
      && forall e :: 0 <= e < |before.offers| ==>
           after.offers[e].shipped == before.offers[e].shipped && after.offers[e].shipment == before.offers[e].shipment
  }

  ghost predicate IsRun(states: seq<Cart>, calls: seq<Call>) {
    && |states| == |calls| + 1
    && forall i :: 0 <= i < |calls| ==> Next(states[i], calls[i], states[i + 1])
  }

  ghost predicate On(c: Cart, e: nat, shipment: Option<nat>) {
    e < |c.offers| && c.offers[e].shipped && c.offers[e].shipment == shipment
  }

  lemma NextKeeps(before: Cart, call: Call, after: Cart, e: nat, shipment: Option<nat>)
    requires Next(before, call, after) && On(before, e, shipment)
    ensures On(after, e, shipment) && !Ships(before, call, e)
  {
    if call.Ship? { assert OfferAfter(before, after, BatchOf(before, call), call.env, e); }
  }

  lemma NextFlags(before: Cart, call: Call, after: Cart, e: nat)
    requires Next(before, call, after) && e < |before.offers| && !before.offers[e].shipped
    ensures e < |after.offers|
    ensures after.offers[e].shipped <==> Ships(before, call, e)
  {
    if call.Ship? { assert OfferAfter(before, after, BatchOf(before, call), call.env, e); }
  }

  lemma {:induction false} StaysOn(states: seq<Cart>, calls: seq<Call>, i: nat, j: nat, e: nat, shipment: Option<nat>)
    requires IsRun(states, calls) && i <= j < |states| && On(states[i], e, shipment)
    ensures On(states[j], e, shipment)
    ensures forall k :: i <= k < j ==> !Ships(states[k], calls[k], e)
    decreases j
  {
    if i < j {
      StaysOn(states, calls, i, j - 1, e, shipment);
      assert Next(states[j - 1], calls[j - 1], states[j - 1 + 1]);
      NextKeeps(states[j - 1], calls[j - 1], states[j], e, shipment);
    }
  }

  lemma GrewKeepsOrders(before: ShipmentLog.Desk, after: ShipmentLog.Desk)
    requires Grew(before, after)
    ensures ShipmentLog.KeepsOrders(before, after)
  {
    forall i | 0 <= i < |before.shipments| ensures after.shipments[i] == before.shipments[i] {
      assert after.shipments[..|before.shipments|][i] == after.shipments[i];
    }
  }

  lemma {:induction false} DesksKeepOrders(states: seq<Cart>, calls: seq<Call>, i: nat, j: nat)
    requires IsRun(states, calls) && i <= j < |states|
    ensures ShipmentLog.KeepsOrders(states[i].desk, states[j].desk)
    decreases j
  {
    if i < j {
      DesksKeepOrders(states, calls, i, j - 1);
      assert Next(states[j - 1], calls[j - 1], states[j - 1 + 1]);
      if calls[j - 1].Ship? { GrewKeepsOrders(states[j - 1].desk, states[j].desk); }
    }
  }

  /** A call that ships an offer puts it on a shipment of its order. */
  lemma ShipsPutsOn(before: Cart, call: Call, after: Cart, e: nat)
    requires Next(before, call, after) && Ships(before, call, e)
    ensures e < |after.offers| && After(before, after, e)
  {
    assert OfferAfter(before, after, BatchOf(before, call), call.env, e);
  }

  ghost predicate After(before: Cart, after: Cart, e: nat)
    requires e < |before.offers| && e < |after.offers|
  {
    && after.offers[e].shipped && after.offers[e].shipment.Some?
    && after.offers[e].shipment.value < |after.desk.shipments|
    && after.desk.shipments[after.offers[e].shipment.value].order == before.offers[e].order
  }

  ghost predicate IsShipmentOf(c: Cart, shipment: Option<nat>, o: nat) {
    shipment.Some? && shipment.value < |c.desk.shipments| && c.desk.shipments[shipment.value].order == o
  }

  /** After the call that ships an offer no other does, and it stays on that shipment, which stays one of its order. */
  lemma ShippedForGood(states: seq<Cart>, calls: seq<Call>, i: nat, e: nat)
    requires IsRun(states, calls) && i < |calls| && Ships(states[i], calls[i], e)
    ensures e < |states[i + 1].offers| && After(states[i], states[i + 1], e)
    ensures forall k :: i < k < |calls| ==> !Ships(states[k], calls[k], e)
    ensures forall k :: i < k < |states| ==>
              && On(states[k], e, states[i + 1].offers[e].shipment)
              && IsShipmentOf(states[k], states[i + 1].offers[e].shipment, states[i].offers[e].order)
  {
    assert Next(states[i], calls[i], states[i + 1]);
    ShipsPutsOn(states[i], calls[i], states[i + 1], e);
    var shipment := states[i + 1].offers[e].shipment;
    StaysOn(states, calls, i + 1, |calls|, e, shipment);
    forall k | i < k < |states|
      ensures On(states[k], e, shipment) && IsShipmentOf(states[k], shipment, states[i].offers[e].order)
    {
      StaysOn(states, calls, i + 1, k, e, shipment);
      DesksKeepOrders(states, calls, i + 1, k);
    }
  }

  /** Over any run no offer is shipped by two calls, and once it is, no later call changes the shipment it is on. */
  lemma ShippedOnce(states: seq<Cart>, calls: seq<Call>, i: nat, j: nat, e: nat)
    requires IsRun(states, calls) && i < |calls| && j < |calls|
    requires Ships(states[i], calls[i], e) && Ships(states[j], calls[j], e)
    ensures i == j
    ensures forall k :: i < k < |states| ==>
              e < |states[i + 1].offers| && On(states[k], e, states[i + 1].offers[e].shipment)
  {
    ShippedForGood(states, calls, i, e);
    ShippedForGood(states, calls, j, e);
  }

  /** An offer that began unflagged is flagged at the end exactly when some call of the run shipped it. */
  lemma {:induction false} FlaggedIffShipped(states: seq<Cart>, calls: seq<Call>, e: nat)
    requires IsRun(states, calls) && e < |states[0].offers| && !states[0].offers[e].shipped
    ensures e < |states[|calls|].offers|
    ensures states[|calls|].offers[e].shipped <==> exists i :: 0 <= i < |calls| && Ships(states[i], calls[i], e)
  {
    if calls != [] {
      var n := |calls| - 1;
      FlaggedIffShipped(states[..n + 1], calls[..n], e);
      assert Next(states[n], calls[n], states[n + 1]);
      if states[n].offers[e].shipped {
        NextKeeps(states[n], calls[n], states[n + 1], e, states[n].offers[e].shipment);
        var i :| 0 <= i < n && Ships(states[..n + 1][i], calls[..n][i], e);
        assert Ships(states[i], calls[i], e);
      } else {
        NextFlags(states[n], calls[n], states[n + 1], e);
        forall i | 0 <= i < n ensures !Ships(states[i], calls[i], e) {
          assert states[..n + 1][i] == states[i] && calls[..n][i] == calls[i];
        }
      }
    }
  }

  /**
   * A call that moves an order moves it to SHIPPED exactly when no accepted offer of it is left unshipped, else to
   * PARTIALLY_SHIPPED.
   */
  lemma ShippedMeansAll(before: Cart, after: Cart, batch: set<nat>, o: nat, env: Env)
    requires WellFormed(before) && ShipsBatch(before, after, batch, env) && o < |before.orders|
    requires after.orders[o].status != before.orders[o].status
    ensures after.orders[o].status in {SHIPPED, PARTIALLY_SHIPPED}
    ensures after.orders[o].status == SHIPPED <==>
            forall e :: 0 <= e < |after.offers| && after.offers[e].order == o && after.offers[e].accepted ==>
                   after.offers[e].shipped
  {
    assert env.createOk(o);
    LeftIff(before, after, batch, o, env);
  }

  /** What a request flags: accepted, unflagged, asked for, this customer's, in one of three statuses, shipment made. */
  ghost predicate Flags(c: Cart, customer: nat, orderIds: set<nat>, offerIds: set<nat>, env: Env, e: nat)
    requires WellFormed(c) && e < |c.offers|
  {
    var o := c.offers[e].order;
    && c.offers[e].accepted && !c.offers[e].shipped && (e in offerIds || o in orderIds)
    && c.orders[o].customer == customer && c.orders[o].status in {PREPARATION, PARTIALLY_SHIPPED, VERIFICATION_SUCCESS}
    && env.createOk(o)
  }

  lemma FlagsIff(before: Cart, after: Cart, customer: nat, orderIds: set<nat>, offerIds: set<nat>, env: Env, e: nat)
    requires WellFormed(before) && ShipsBatch(before, after, Valid(before, customer, orderIds, offerIds), env)
    requires e < |before.offers|
    ensures if Flags(before, customer, orderIds, offerIds, env, e) then After(before, after, e)
            else after.offers[e] == before.offers[e]
    ensures after.offers[e].order == before.offers[e].order && after.offers[e].accepted == before.offers[e].accepted
  {
    assert OfferAfter(before, after, Valid(before, customer, orderIds, offerIds), env, e);
  }

  /** The request flags these offers and touches no other. */
  ghost predicate FlagsExactly(before: Cart, after: Cart, customer: nat, orderIds: set<nat>, offerIds: set<nat>,
                               env: Env)
    requires WellFormed(before)
  {
    && |after.offers| == |before.offers|
    && forall e :: 0 <= e < |before.offers| ==>
         if Flags(before, customer, orderIds, offerIds, env, e) then After(before, after, e)
         else after.offers[e] == before.offers[e]
  }

  lemma FlagsAll(before: Cart, after: Cart, customer: nat, orderIds: set<nat>, offerIds: set<nat>, env: Env)
    requires WellFormed(before) && ShipsBatch(before, after, Valid(before, customer, orderIds, offerIds), env)
    ensures FlagsExactly(before, after, customer, orderIds, offerIds, env)
  {
    forall e | 0 <= e < |before.offers|
      ensures if Flags(before, customer, orderIds, offerIds, env, e) then After(before, after, e)
              else after.offers[e] == before.offers[e]
    {
      FlagsIff(before, after, customer, orderIds, offerIds, env, e);
    }
  }

  ghost predicate AnyLeft(c: Cart, o: nat) {
    exists e :: 0 <= e < |c.offers| && c.offers[e].order == o && c.offers[e].accepted && !c.offers[e].shipped
  }

  ghost predicate AnyFlagged(c: Cart, customer: nat, orderIds: set<nat>, offerIds: set<nat>, env: Env, o: nat)
    requires WellFormed(c)
  {
    exists e :: 0 <= e < |c.offers| && c.offers[e].order == o && Flags(c, customer, orderIds, offerIds, env, e)
  }

  /**
   * A request moves an order exactly if it flags some offer of it and either the order was in PREPARATION and something
   * is left, which makes it PARTIALLY_SHIPPED, or it was PARTIALLY_SHIPPED and nothing is, which makes it SHIPPED.
   */
  lemma MovesIff(before: Cart, after: Cart, customer: nat, orderIds: set<nat>, offerIds: set<nat>, env: Env, o: nat)
    requires WellFormed(before) && ShipsBatch(before, after, Valid(before, customer, orderIds, offerIds), env)
    requires o < |before.orders|
    ensures var was, moved := before.orders[o], AnyFlagged(before, customer, orderIds, offerIds, env, o);
            after.orders[o]
            == if moved && was.status == PREPARATION && AnyLeft(after, o)
               then was.(status := PARTIALLY_SHIPPED, updatedAt := env.now)
               else if moved && was.status == PARTIALLY_SHIPPED && !AnyLeft(after, o)
               then was.(status := SHIPPED, updatedAt := env.now)
               else was
  {
    var batch := Valid(before, customer, orderIds, offerIds);
    if env.createOk(o) { LeftIff(before, after, batch, o, env); }
    FlaggedInOrder(before, customer, orderIds, offerIds, env, o);
    if InOrder(before, batch, o) != {} && env.createOk(o) { GroupSucceedsIff(before, batch, o, env); }
  }

  lemma FlaggedInOrder(c: Cart, customer: nat, orderIds: set<nat>, offerIds: set<nat>, env: Env, o: nat)
    requires WellFormed(c) && o < |c.orders|
    ensures var group := InOrder(c, Valid(c, customer, orderIds, offerIds), o);
            && (AnyFlagged(c, customer, orderIds, offerIds, env, o) <==> group != {} && env.createOk(o))
            && (group != {} ==> c.orders[o].status in SHIPPABLE)
  {
    var group := InOrder(c, Valid(c, customer, orderIds, offerIds), o);
    if group != {} {
      var e :| e in group;
      assert env.createOk(o) ==> Flags(c, customer, orderIds, offerIds, env, e);
    }
    if AnyFlagged(c, customer, orderIds, offerIds, env, o) {
      var e :| 0 <= e < |c.offers| && c.offers[e].order == o && Flags(c, customer, orderIds, offerIds, env, e);
      assert e in group;
    }
  }

  lemma LeftIff(before: Cart, after: Cart, batch: set<nat>, o: nat, env: Env)
    requires ShipsBatch(before, after, batch, env) && o < |before.orders| && env.createOk(o)
    ensures AnyLeft(after, o) <==> Remaining(before, batch, o) != {}
  {
    forall e | 0 <= e < |after.offers|
      ensures (after.offers[e].order == o && after.offers[e].accepted && !after.offers[e].shipped)
              <==> e in Remaining(before, batch, o)
    {
      assert OfferAfter(before, after, batch, env, e);
    }
  }

  // ---- One group after another -------------------------------------------------------------------------------

  lemma ComposeStatus(a: Cart, b: Cart, first: set<nat>, second: set<nat>, o: nat, q: nat, env: Env)
    requires ShipsBatch(a, b, first, env) && q < |a.orders|
    requires forall e :: e in first ==> e < |a.offers| && a.offers[e].order != o
    requires forall e :: e in second ==> e < |a.offers| && a.offers[e].order == o
    ensures q == o ==> InOrder(a, first + second, q) == InOrder(b, second, q) && InOrder(a, first, q) == {}
                       && Remaining(a, first + second, q) == Remaining(b, second, q)
    ensures q != o ==> InOrder(a, first + second, q) == InOrder(a, first, q) && InOrder(b, second, q) == {}
                       && Remaining(a, first + second, q) == Remaining(a, first, q)
  {
    forall e | 0 <= e < |a.offers| ensures b.offers[e].order == a.offers[e].order
                                           && (a.offers[e].order == o ==> b.offers[e] == a.offers[e]) {
      assert OfferAfter(a, b, first, env, e);
    }
  }

  /** Shipping one order's group after groups of other orders is shipping them together. */
  lemma Compose(a: Cart, b: Cart, c: Cart, first: set<nat>, second: set<nat>, o: nat, env: Env)
    requires ShipsBatch(a, b, first, env) && ShipsBatch(b, c, second, env) && o < |a.orders|
    requires forall e :: e in first ==> e < |a.offers| && a.offers[e].order != o
    requires forall e :: e in second ==> e < |a.offers| && a.offers[e].order == o
    ensures ShipsBatch(a, c, first + second, env)
    ensures GroupSucceeds(b, second, o, env) == GroupSucceeds(a, first + second, o, env)
  {
    forall e | 0 <= e < |a.offers| ensures OfferAfter(a, c, first + second, env, e) {
      assert OfferAfter(a, b, first, env, e) && OfferAfter(b, c, second, env, e);
      assert c.desk.shipments[..|a.desk.shipments|] == a.desk.shipments;
      assert forall i :: 0 <= i < |b.desk.shipments| ==>
               c.desk.shipments[i] == c.desk.shipments[..|b.desk.shipments|][i];
    }
    ComposeStatus(a, b, first, second, o, o, env);
    forall q | 0 <= q < |a.orders|
      ensures c.orders[q] == OrderAfter(a, first + second, q, env) {
      ComposeStatus(a, b, first, second, o, q, env);
    }
    assert c.desk.shipments[..|a.desk.shipments|] == c.desk.shipments[..|b.desk.shipments|][..|a.desk.shipments|];
  }

  /** The part of the batch that belongs to these orders. */
  function OfOrders(c: Cart, batch: set<nat>, orders: seq<nat>): set<nat> {
    set e | e in batch && e < |c.offers| && c.offers[e].order in orders
  }

  function ResultOf(c: Cart, batch: set<nat>, o: nat, env: Env): GroupResult {
    if GroupSucceeds(c, batch, o, env) then Shipped(o, |InOrder(c, batch, o)|) else Failed(o)
  }

  /** What holds after the groups of the orders `done`. */
  ghost predicate Progress(before: Cart, now: Cart, batch: set<nat>, done: seq<nat>, env: Env,
                           count: nat, results: seq<GroupResult>) {
    && ShipsBatch(before, now, OfOrders(before, batch, done), env)
    && count == |Counted(before, OfOrders(before, batch, done), env)|
    && ResultsOf(before, batch, env, done, results)
  }

  /** Whether a group succeeds depends on its own offers alone. */
  lemma GroupsApart(c: Cart, batch: set<nat>, orders: seq<nat>, o: nat, env: Env)
    requires o in orders
    ensures GroupSucceeds(c, OfOrders(c, batch, orders), o, env) == GroupSucceeds(c, batch, o, env)
  {
    assert Remaining(c, OfOrders(c, batch, orders), o) == Remaining(c, batch, o);
  }

  lemma CountGroup(c: Cart, batch: set<nat>, done: seq<nat>, o: nat, env: Env)
    requires o !in done
    ensures OfOrders(c, batch, done + [o]) == OfOrders(c, batch, done) + InOrder(c, batch, o)
    ensures |Counted(c, OfOrders(c, batch, done + [o]), env)| == |Counted(c, OfOrders(c, batch, done), env)|
            + (if GroupSucceeds(c, batch, o, env) then |InOrder(c, batch, o)| else 0)
  {
    var all, earlier, group := OfOrders(c, batch, done + [o]), OfOrders(c, batch, done), InOrder(c, batch, o);
    forall e | e in batch && e < |c.offers| && c.offers[e].order in done + [o]
      ensures GroupSucceeds(c, all, c.offers[e].order, env) == GroupSucceeds(c, batch, c.offers[e].order, env)
      ensures e in earlier ==>
                GroupSucceeds(c, earlier, c.offers[e].order, env) == GroupSucceeds(c, batch, c.offers[e].order, env)
    {
      GroupsApart(c, batch, done + [o], c.offers[e].order, env);
      if e in earlier { GroupsApart(c, batch, done, c.offers[e].order, env); }
    }
    var extra := if GroupSucceeds(c, batch, o, env) then group else {};
    assert Counted(c, all, env) == Counted(c, earlier, env) + extra;
    assert Counted(c, earlier, env) * extra == {};
  }

  /** One more group keeps the progress. */
  lemma ProgressStep(before: Cart, now: Cart, after: Cart, batch: set<nat>, done: seq<nat>, o: nat, env: Env,
                     count: nat, results: seq<GroupResult>)
    requires Progress(before, now, batch, done, env, count, results)
    requires o !in done && o < |before.orders|
    requires ShipsBatch(now, after, InOrder(before, batch, o), env)
    ensures var ok := GroupSucceeds(now, InOrder(before, batch, o), o, env);
            ok == GroupSucceeds(before, batch, o, env)
            && Progress(before, after, batch, done + [o], env,
                        count + (if ok then |InOrder(before, batch, o)| else 0),
                        results + [if ok then Shipped(o, |InOrder(before, batch, o)|) else Failed(o)])
  {
    var group := InOrder(before, batch, o);
    CountGroup(before, batch, done, o, env);
    Compose(before, now, after, OfOrders(before, batch, done), group, o, env);
    GroupsApart(before, batch, done + [o], o, env);
  }

  function OrderIs(c: Cart, o: nat): nat -> bool {
    (e: nat) => e < |c.offers| && c.offers[e].order == o
  }

  /** The list split by order: every group is what the list holds of its order, in the list's order. */
  ghost predicate Grouped(c: Cart, offers: seq<nat>, keys: seq<nat>, groups: map<nat, seq<nat>>) {
    && Distinct(keys) && (forall o :: o in keys <==> o in groups)
    && (forall o :: o in groups ==> groups[o] == Filter(offers, OrderIs(c, o)) && groups[o] != [])
    && (forall e :: e in offers ==> e < |c.offers| && c.offers[e].order in groups)
  }

  lemma GroupAdded(c: Cart, offers: seq<nat>, e: nat, keys: seq<nat>, groups: map<nat, seq<nat>>)
    requires Grouped(c, offers, keys, groups) && e < |c.offers|
    ensures var o := c.offers[e].order;
            if o in groups then Grouped(c, offers + [e], keys, groups[o := groups[o] + [e]])
            else Grouped(c, offers + [e], keys + [o], groups[o := [e]])
  {
    var o := c.offers[e].order;
    forall q: nat ensures Filter(offers + [e], OrderIs(c, q)) == Filter(offers, OrderIs(c, q))
           + if q == o then [e] else [] {
      FilterAppend(offers, e, OrderIs(c, q));
    }
    if o !in groups { FilterNone(offers, OrderIs(c, o)); }
  }

  /** The groups are the batch's parts, each once and complete. */
  ghost predicate Fits(c: Cart, batch: set<nat>, keys: seq<nat>, groups: map<nat, seq<nat>>) {
    && Distinct(keys)
    && (forall o :: o in keys ==> o in groups && FitsGroup(c, batch, o, groups[o]))
    && (forall e :: e in batch ==> e < |c.offers| && Pending(c, e) && c.offers[e].order in keys)
  }

  ghost predicate FitsGroup(c: Cart, batch: set<nat>, o: nat, group: seq<nat>) {
    o < |c.orders| && group != [] && Elements(group) == InOrder(c, batch, o) && |group| == |InOrder(c, batch, o)|
  }

  lemma GroupFits(c: Cart, rows: seq<nat>, o: nat)
    requires WellFormed(c) && Distinct(rows) && Filter(rows, OrderIs(c, o)) != []
    ensures FitsGroup(c, Elements(rows), o, Filter(rows, OrderIs(c, o)))
  {
    var group := Filter(rows, OrderIs(c, o));
    FilterMembers(rows, OrderIs(c, o));
    FilterDistinct(rows, OrderIs(c, o));
    ElementsSize(group);
    assert group[0] in group;
    assert Elements(group) == InOrder(c, Elements(rows), o);
  }

  lemma GroupedFits(c: Cart, rows: seq<nat>, keys: seq<nat>, groups: map<nat, seq<nat>>)
    requires WellFormed(c) && Grouped(c, rows, keys, groups) && Distinct(rows) && forall e :: e in rows ==>
             Pending(c, e)
    ensures Fits(c, Elements(rows), keys, groups)
  {
    forall o | o in keys ensures FitsGroup(c, Elements(rows), o, groups[o]) {
      assert o in groups;
      GroupFits(c, rows, o);
    }
  }

  /** Groups of other orders leave this order's offers pending. */
  lemma StillPending(before: Cart, now: Cart, batch: set<nat>, done: seq<nat>, o: nat, env: Env, e: nat)
    requires ShipsBatch(before, now, OfOrders(before, batch, done), env)
    requires o !in done && e < |before.offers| && before.offers[e].order == o && Pending(before, e)
    ensures Pending(now, e) && now.offers[e].order == o
  {
    assert OfferAfter(before, now, OfOrders(before, batch, done), env, e);
  }

  ghost predicate ReportedOn(c: Cart, batch: set<nat>, env: Env, results: seq<GroupResult>) {
    && (forall e :: e in batch ==> e < |c.offers| && ResultOf(c, batch, c.offers[e].order, env) in results)
    && (forall r :: r in results ==> exists e :: e in batch && c.offers[e].order == r.order)
    && (forall i, j :: 0 <= i < j < |results| ==> results[i].order != results[j].order)
  }

  ghost predicate ResultsOf(c: Cart, batch: set<nat>, env: Env, keys: seq<nat>, results: seq<GroupResult>) {
    |results| == |keys| && forall i :: 0 <= i < |keys| ==> results[i] == ResultOf(c, batch, keys[i], env)
  }

  lemma ResultFound(c: Cart, batch: set<nat>, env: Env, keys: seq<nat>, results: seq<GroupResult>, o: nat)
    requires ResultsOf(c, batch, env, keys, results) && o in keys
    ensures ResultOf(c, batch, o, env) in results
  {
    var i :| 0 <= i < |keys| && keys[i] == o;
    assert results[i] in results;
  }

  lemma ResultNamesKey(c: Cart, batch: set<nat>, env: Env, keys: seq<nat>, results: seq<GroupResult>, r: GroupResult)
    requires ResultsOf(c, batch, env, keys, results) && r in results
    ensures r.order in keys
  {
    var i :| 0 <= i < |results| && results[i] == r;
    assert r.order == keys[i];
  }

  lemma GroupHasOffer(c: Cart, batch: set<nat>, o: nat, group: seq<nat>)
    requires FitsGroup(c, batch, o, group)
    ensures exists e :: e in batch && e < |c.offers| && c.offers[e].order == o
  {
    assert group[0] in group && group[0] in Elements(group);
  }

  /** The results name every order of the batch once, and no other. */
  lemma ResultsCover(c: Cart, batch: set<nat>, keys: seq<nat>, groups: map<nat, seq<nat>>, env: Env,
                     results: seq<GroupResult>)
    requires Fits(c, batch, keys, groups) && ResultsOf(c, batch, env, keys, results)
    ensures ReportedOn(c, batch, env, results)
  {
    forall e | e in batch ensures ResultOf(c, batch, c.offers[e].order, env) in results {
      ResultFound(c, batch, env, keys, results, c.offers[e].order);
    }
    forall r | r in results ensures exists e :: e in batch && c.offers[e].order == r.order {
      ResultNamesKey(c, batch, env, keys, results, r);
      GroupHasOffer(c, batch, r.order, groups[r.order]);
    }
  }

  /** A group whose turn has not come is still pending, whole. */
  lemma GroupPending(before: Cart, now: Cart, batch: set<nat>, keys: seq<nat>, groups: map<nat, seq<nat>>, i: nat,
                     env: Env)
    requires Fits(before, batch, keys, groups) && i < |keys|
    requires ShipsBatch(before, now, OfOrders(before, batch, keys[..i]), env)
    ensures ReadyToShip(now, keys[i], groups[keys[i]])
    ensures Elements(groups[keys[i]]) == InOrder(before, batch, keys[i])
            && |groups[keys[i]]| == |InOrder(before, batch, keys[i])|
  {
    var o := keys[i];
    assert o in keys && FitsGroup(before, batch, o, groups[o]);
    assert o !in keys[..i];
    forall e | e in groups[o] ensures Pending(now, e) && now.offers[e].order == o {
      assert e in Elements(groups[o]);
      StillPending(before, now, batch, keys[..i], o, env, e);
    }
  }

  lemma ProgressStarts(c: Cart, batch: set<nat>, env: Env)
    ensures Progress(c, c, batch, [], env, 0, [])
  {
    assert OfOrders(c, batch, []) == {} && Counted(c, {}, env) == {};
    assert forall o :: InOrder(c, {}, o) == {};
  }

  lemma GroupDone(before: Cart, now: Cart, after: Cart, batch: set<nat>, keys: seq<nat>, groups: map<nat, seq<nat>>,
                  i: nat,
                  env: Env, count: nat, results: seq<GroupResult>)
    requires Fits(before, batch, keys, groups) && i < |keys|
             && Progress(before, now, batch, keys[..i], env, count, results)
    requires ShipsBatch(now, after, Elements(groups[keys[i]]), env)
    ensures var o, group := keys[i], groups[keys[i]];
            var ok := GroupSucceeds(now, Elements(group), o, env);
            Progress(before, after, batch, keys[..i + 1], env, count + (if ok then |group| else 0),
                     results + [if ok then Shipped(o, |group|) else Failed(o)])
  {
    var o := keys[i];
    assert o in keys && FitsGroup(before, batch, o, groups[o]) && o !in keys[..i];
    assert keys[..i + 1] == keys[..i] + [o];
    ProgressStep(before, now, after, batch, keys[..i], o, env, count, results);
  }

  lemma ProgressEnds(before: Cart, after: Cart, batch: set<nat>, keys: seq<nat>, groups: map<nat, seq<nat>>,
                     env: Env, count: nat, results: seq<GroupResult>)
    requires Fits(before, batch, keys, groups) && Progress(before, after, batch, keys[..|keys|], env, count, results)
    ensures Reported(before, after, batch, env, count, results)
  {
    assert keys[..|keys|] == keys;
    assert OfOrders(before, batch, keys) == batch;
    ResultsCover(before, batch, keys, groups, env, results);
  }

  ghost predicate ReadyToShip(c: Cart, o: nat, group: seq<nat>) {
    o < |c.orders| && group != [] && forall e :: e in group ==> Pending(c, e) && c.offers[e].order == o
  }

  /** The call's answer: the batch shipped, the offers of successful groups counted, one result per order. */
  ghost predicate Reported(before: Cart, after: Cart, batch: set<nat>, env: Env, count: nat,
                           results: seq<GroupResult>) {
    && ShipsBatch(before, after, batch, env)
    && count == |Counted(before, batch, env)|
    && ReportedOn(before, batch, env, results)
  }

  /** Setting the flags is one update over the rows of the group. */
  function Flagged(offers: seq<Offer>, batch: seq<nat>, id: nat): (r: seq<Offer>)
    ensures |r| == |offers|
    ensures forall e :: 0 <= e < |offers| ==>
      r[e] == if e in batch then offers[e].(shipped := true, shipment := Some(id)) else offers[e]
  {
    seq(|offers|, e requires 0 <= e < |offers| =>
      if e in batch then offers[e].(shipped := true, shipment := Some(id)) else offers[e])
  }

  lemma OneGroup(c: Cart, o: nat, batch: seq<nat>)
    requires ReadyToShip(c, o, batch)
    ensures forall q: nat :: InOrder(c, Elements(batch), q) == if q == o then Elements(batch) else {}
    ensures Elements(batch) != {}
  {
    assert batch[0] in Elements(batch);
  }

  lemma NothingMade(c: Cart, o: nat, batch: seq<nat>, env: Env)
    requires ReadyToShip(c, o, batch) && !env.createOk(o)
    ensures ShipsBatch(c, c, Elements(batch), env) && !GroupSucceeds(c, Elements(batch), o, env)
  {
    OneGroup(c, o, batch);
  }

  lemma GroupShipped(before: Cart, after: Cart, o: nat, batch: seq<nat>, id: nat, env: Env)
    requires ReadyToShip(before, o, batch) && env.createOk(o)
    requires Grew(before.desk, after.desk)
    requires id < |after.desk.shipments| && after.desk.shipments[id].order == o
             && after.offers == Flagged(before.offers, batch, id)
    requires after.orders == before.orders[o := OrderAfter(before, Elements(batch), o, env)]
    ensures ShipsBatch(before, after, Elements(batch), env)
  {
    OneGroup(before, o, batch);
    forall e | 0 <= e < |before.offers| ensures OfferAfter(before, after, Elements(batch), env, e) {}
    forall q | 0 <= q < |before.orders|
      ensures after.orders[q] == OrderAfter(before, Elements(batch), q, env) {}
  }

  lemma NothingShipped(c: Cart, env: Env)
    ensures Reported(c, c, {}, env, 0, [])
  {
    assert Counted(c, {}, env) == {};
    assert forall o :: InOrder(c, {}, o) == {};
  }

  // ---- The service -----------------------------------------------------------------------------------------

  class OrdersService {
    var cart: Cart

    constructor (cart: Cart)
      ensures this.cart == cart
    {
      this.cart := cart;
    }

    method GroupByOrder(offers: seq<nat>) returns (keys: seq<nat>, groups: map<nat, seq<nat>>)
      requires forall e :: e in offers ==> e < |cart.offers|
      ensures Grouped(cart, offers, keys, groups)
    {
      keys, groups := [], map[];
      var i := 0;
      while i < |offers|
        invariant 0 <= i <= |offers| && Grouped(cart, offers[..i], keys, groups)
      {
        assert offers[..i + 1] == offers[..i] + [offers[i]];
        assert offers[i] in offers;
        GroupAdded(cart, offers[..i], offers[i], keys, groups);
        var o := cart.offers[offers[i]].order;
        if o !in groups {
          keys := keys + [o];
          groups := groups[o := [offers[i]]];
        } else {
          groups := groups[o := groups[o] + [offers[i]]];
        }
        i := i + 1;
      }
      assert offers[..|offers|] == offers;
    }

    /** The shipments service makes the order's shipment without a waybill, or finds the one there is. */
    method MakeShipment(o: nat) returns (id: nat)
      modifies this
      ensures cart == old(cart).(desk := ShipmentLog.Apply(old(cart).desk, ShipmentLog.Create(o, None)))
      ensures Grew(old(cart).desk, cart.desk) && id < |cart.desk.shipments| && cart.desk.shipments[id].order == o
    {
      ShipmentLog.CreateMakes(cart.desk, o, None);
      cart := cart.(desk := ShipmentLog.Apply(cart.desk, ShipmentLog.Create(o, None)));
      id := ShipmentLog.Find(cart.desk, ShipmentLog.Booked(o, None)).value;
    }

    /** One order's group: shipment, flags, then the guarded transition. */
    method ShipGroup(o: nat, batch: seq<nat>, env: Env) returns (ok: bool)
      requires ReadyToShip(cart, o, batch)
      modifies this
      ensures ShipsBatch(old(cart), cart, Elements(batch), env)
      ensures ok == GroupSucceeds(old(cart), Elements(batch), o, env)
    {
      ghost var before := cart;
      OneGroup(before, o, batch);
      if !env.createOk(o) {
        NothingMade(before, o, batch, env);
        return false;
      }
      var id := MakeShipment(o);
      cart := cart.(offers := Flagged(cart.offers, batch, id));
      var remaining := set e | 0 <= e < |cart.offers| && Pending(cart, e) && cart.offers[e].order == o;
      assert remaining == Remaining(before, Elements(batch), o);
      if remaining == {} {
        ok := TransitionStatus(o, SHIPPED, env.now);
      } else if cart.orders[o].status != PARTIALLY_SHIPPED {
        ok := TransitionStatus(o, PARTIALLY_SHIPPED, env.now);
      } else {
        ok := true;
      }
      GroupShipped(before, cart, o, batch, id, env);
    }

    /**
     * The guarded transition: an illegal one changes nothing, and completing an order under warranty starts the
     * warranty.
     */
    method TransitionStatus(o: nat, to: OrderStatus, now: int) returns (ok: bool)
      requires o < |cart.orders|
      modifies this
      ensures ok <==> to in Allowed(old(cart).orders[o].status)
      ensures !ok ==> cart == old(cart)
      ensures ok ==> && |cart.orders| == |old(cart).orders|
                     && cart == old(cart).(orders := old(cart).orders[o := cart.orders[o]])
      ensures ok ==> var order := cart.orders[o];
                     && order == old(cart).orders[o].(status := order.status, updatedAt := now)
                     && (order.status == WARRANTY_ACTIVE
                         <==> to == WARRANTY_ACTIVE || (to == COMPLETED && order.hasWarranty))
                     && order.status in {to, WARRANTY_ACTIVE}
    {
      var order := cart.orders[o];
      ok := to in Allowed(order.status);
      if ok {
        var newStatus := if to == COMPLETED && order.hasWarranty then WARRANTY_ACTIVE else to;
        cart := cart.(orders := cart.orders[o := order.(status := newStatus, updatedAt := now)]);
      }
    }

    /** The next group of the loop: shipped, counted and reported. */
    method ShipNext(keys: seq<nat>, groups: map<nat, seq<nat>>, i: nat, ghost batch: set<nat>, ghost before: Cart,
                    env: Env,
                    count: nat, results: seq<GroupResult>) returns (newCount: nat, newResults: seq<GroupResult>)
      requires Fits(before, batch, keys, groups) && i < |keys|
      requires Progress(before, cart, batch, keys[..i], env, count, results)
      modifies this
      ensures Progress(before, cart, batch, keys[..i + 1], env, newCount, newResults)
    {
      ghost var now := cart;
      GroupPending(before, now, batch, keys, groups, i, env);
      var ok := ShipGroup(keys[i], groups[keys[i]], env);
      GroupDone(before, now, cart, batch, keys, groups, i, env, count, results);
      newCount := if ok then count + |groups[keys[i]]| else count;
      newResults := results + [if ok then Shipped(keys[i], |groups[keys[i]]|) else Failed(keys[i])];
    }

    method ShipGroups(keys: seq<nat>, groups: map<nat, seq<nat>>, ghost batch: set<nat>, env: Env)
      returns (count: nat, results: seq<GroupResult>)
      requires Fits(cart, batch, keys, groups)
      modifies this
      ensures Reported(old(cart), cart, batch, env, count, results)
    {
      count, results := 0, [];
      ghost var before := cart;
      ProgressStarts(cart, batch, env);
      var i := 0;
      while i < |keys|
        invariant 0 <= i <= |keys| && Progress(before, cart, batch, keys[..i], env, count, results)
      {
        count, results := ShipNext(keys, groups, i, batch, before, env, count, results);
        i := i + 1;
      }
      ProgressEnds(before, cart, batch, keys, groups, env, count, results);
    }

    /**
     * The whole request: every valid offer goes out with its order's group, and only offers in groups that got
     * through count.
     */
    method RequestShipping(customer: nat, orderIds: set<nat>, offerIds: set<nat>, env: Env)
      returns (success: bool, count: nat, results: seq<GroupResult>)
      requires WellFormed(cart)
      modifies this
      ensures success == (Valid(old(cart), customer, orderIds, offerIds) != {}
                          || !NamesSomething(old(cart), customer, orderIds, offerIds))
      ensures Reported(old(cart), cart, Valid(old(cart), customer, orderIds, offerIds), env, count, results)
      ensures FlagsExactly(old(cart), cart, customer, orderIds, offerIds, env)
    {
      ghost var before := cart;
      var rows := ValidRows(cart, customer, orderIds, offerIds, |cart.offers|);
      ghost var batch := Valid(cart, customer, orderIds, offerIds);
      assert batch == Elements(rows);
      if rows == [] {
        NothingShipped(cart, env);
        assert batch == {};
        FlagsAll(before, cart, customer, orderIds, offerIds, env);
        return !NamesSomething(cart, customer, orderIds, offerIds), 0, [];
      }
      var keys, groups := GroupByOrder(rows);
      GroupedFits(cart, rows, keys, groups);
      assert rows[0] in batch;
      count, results := ShipGroups(keys, groups, batch, env);
      success := true;
      FlagsAll(before, cart, customer, orderIds, offerIds, env);
    }
  }
}
