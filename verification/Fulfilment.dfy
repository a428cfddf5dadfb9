/**
 * Payment intents and their Stripe webhooks: one payment row per offer, and the escrow, invoice and vendor credit
 * that a success webhook writes in one transaction. Amounts are fils.
 */
module Fulfilment {
  import opened Lists
  import opened OrderStates
  import opened MoneyStates

  datatype Offer = Offer(order: nat, unitPrice: int, shippingCost: int, accepted: bool)
  datatype Payment = Payment(order: nat, intent: nat, unitPrice: int, shipping: int, commission: int, total: int,
                             status: PaymentStatus)
  datatype Escrow = Escrow(payment: nat, order: nat, merchant: int, shipping: int, commission: int, gatewayFee: int)
  datatype Invoice = Invoice(payment: nat, subtotal: int, shipping: int, commission: int, total: int)
  datatype Credit = Credit(payment: nat, amount: int)

  /**
   * Payments are keyed by their offer. `uniqueKeys` tells whether the database enforces the unique payment and order
   * of an escrow row, which the Prisma schema declares and the SQL migration does not create. `refundLog` is history:
   * one entry each time a refund takes a payment out of SUCCESS.
   */
  datatype Books = Books(offers: map<nat, Offer>, orders: map<nat, OrderStatus>, payments: map<nat, Payment>,
                         escrows: seq<Escrow>, invoices: seq<Invoice>, credits: seq<Credit>, uniqueKeys: bool,
                         refundLog: seq<nat>)

  datatype Outcome = Done | Skipped | NotFound | Forbidden | BadStatus | AlreadyPaid | AmountMismatch | DuplicateKey

  const MIN_COMMISSION: int := 100 * 100

  /** Whole dirhams nearest to a quarter of the price, a half counting up; 100 AED below 400, nothing on a free part. */
  predicate IsQuarter(unitPrice: int, c: int) {
    && c % 100 == 0 && (c == 0 <==> unitPrice <= 0)
    && (0 < unitPrice < 400_00 ==> c == 100_00)
    && (unitPrice >= 400_00 ==> unitPrice - 200 < 4 * c <= unitPrice + 200)
  }

  function Commission(unitPrice: int): (c: int)
    ensures IsQuarter(unitPrice, c)
  {
    var percent := (unitPrice + 200) / 400 * 100;
    if unitPrice <= 0 then 0 else if percent < MIN_COMMISSION then MIN_COMMISSION else percent
  }

  const PAYABLE: set<OrderStatus> :=
    {AWAITING_PAYMENT, AWAITING_OFFERS, COLLECTING_OFFERS, AWAITING_SELECTION, PARTIALLY_PAID}

  // ---- The operations ------------------------------------------------------------------------------

  function IntentRow(order: nat, offer: Offer, intent: nat): Payment {
    var c := Commission(offer.unitPrice);
    Payment(order, intent, offer.unitPrice, offer.shippingCost, c, offer.unitPrice + offer.shippingCost + c, PENDING)
  }

  /** A new intent; a payment row the offer already has is reused, keeping the order it was created for. */
  function CreateIntent(b: Books, order: nat, offer: nat, isOwner: bool, intent: nat): (Books, Outcome) {
    if order !in b.orders then (b, NotFound)
    else if !isOwner then (b, Forbidden)
    else if b.orders[order] !in PAYABLE then (b, BadStatus)
    else if offer !in b.offers || b.offers[offer].order != order || !b.offers[offer].accepted then (b, NotFound)
    else if offer in b.payments && b.payments[offer].status == SUCCESS then (b, AlreadyPaid)
    else
      var rowOrder := if offer in b.payments then b.payments[offer].order else order;
      (b.(payments := b.payments[offer := IntentRow(rowOrder, b.offers[offer], intent)]), Done)
  }

  function PaidOffers(b: Books, order: nat): set<nat> {
    set f | f in b.payments && b.payments[f].order == order && b.payments[f].status == SUCCESS
  }

  function AcceptedOffers(b: Books, order: nat): set<nat> {
    set f | f in b.offers && b.offers[f].order == order && b.offers[f].accepted
  }

  /** The test that moves an order to PREPARATION: it counts the order's paid rows, accepted or not. */
  predicate AllPaidGate(b: Books, order: nat) {
    |PaidOffers(b, order)| >= |AcceptedOffers(b, order)|
  }

  predicate KeyTaken(b: Books, f: nat, order: nat) {
    b.uniqueKeys && exists i :: 0 <= i < |b.escrows| && (b.escrows[i].payment == f || b.escrows[i].order == order)
  }

  function Recorded(b: Books, f: nat): Books
    requires f in b.payments
  {
    var p := b.payments[f];
    b.(payments := b.payments[f := p.(status := SUCCESS)],
       escrows := b.escrows + [Escrow(f, p.order, p.unitPrice, p.shipping, p.commission, 0)],
       credits := b.credits + [Credit(f, p.unitPrice)],
       invoices := b.invoices + [Invoice(f, p.unitPrice, p.shipping, p.commission, p.total)])
  }

  function Opened(b: Books, order: nat): Books {
    if AllPaidGate(b, order) then b.(orders := b.orders[order := PREPARATION]) else b
  }

  /** `found` is the row findFirst returned for the intent; `received` the amount Stripe reports, if it reports one. */
  function Fulfil(b: Books, found: Option<nat>, received: Option<int>): (Books, Outcome)
    requires found.Some? ==> found.value in b.payments
  {
    if found.None? then (b, NotFound)
    else
      var f := found.value;
      if received.Some? && received.value != b.payments[f].total then (b, AmountMismatch)
      else if b.payments[f].status == SUCCESS then (b, Skipped)
      else if KeyTaken(b, f, b.payments[f].order) then (b, DuplicateKey)
      else (Opened(Recorded(b, f), b.payments[f].order), Done)
  }

  function Fail(b: Books, found: Option<nat>): (Books, Outcome)
    requires found.Some? ==> found.value in b.payments
  {
    if found.None? then (b, NotFound)
    else if b.payments[found.value].status != PENDING then (b, Skipped)
    else (b.(payments := b.payments[found.value := b.payments[found.value].(status := FAILED)]), Done)
  }

  /** A refund, through the escrow service or a full charge.refunded webhook, marks the row whatever its status. */
  function MarkRefunded(b: Books, f: nat): Books
    requires f in b.payments
  {
    b.(payments := b.payments[f := b.payments[f].(status := PAYMENT_REFUNDED)],
       refundLog := if b.payments[f].status == SUCCESS then b.refundLog + [f] else b.refundLog)
  }

  // ---- Runs ----------------------------------------------------------------------------------------

  datatype Action =
    | IntentCreated(order: nat, offer: nat, isOwner: bool, intent: nat)
    | SuccessWebhook(intent: nat, found: Option<nat>, received: Option<int>)
    | FailureWebhook(intent: nat, found: Option<nat>)
    | Refunded(payment: nat)
    | OfferDecided(offer: nat, accepted: bool)
    | OrderMoved(order: nat, status: OrderStatus)

  ghost predicate Finds(b: Books, intent: nat, found: Option<nat>) {
    match found
    case Some(f) => f in b.payments && b.payments[f].intent == intent
    case None => forall f :: f in b.payments ==> b.payments[f].intent != intent
  }

  ghost predicate Enabled(b: Books, a: Action) {
    match a
    case SuccessWebhook(intent, found, _) => Finds(b, intent, found)
    case FailureWebhook(intent, found) => Finds(b, intent, found)
    case Refunded(f) => f in b.payments
    case OfferDecided(f, _) => f in b.offers
    case _ => true
  }

  function Step(b: Books, a: Action): Books
    requires Enabled(b, a)
  {
    match a
    case IntentCreated(o, f, isOwner, intent) => CreateIntent(b, o, f, isOwner, intent).0
    case SuccessWebhook(_, found, received) => Fulfil(b, found, received).0
    case FailureWebhook(_, found) => Fail(b, found).0
    case Refunded(f) => MarkRefunded(b, f)
    case OfferDecided(f, accepted) => b.(offers := b.offers[f := b.offers[f].(accepted := accepted)])
    case OrderMoved(o, status) => b.(orders := b.orders[o := status])
  }

  ghost predicate IsRun(states: seq<Books>, actions: seq<Action>) {
    && |states| == |actions| + 1
    && forall i :: 0 <= i < |actions| ==> Follows(states[i], actions[i], states[i + 1])
  }

  ghost predicate Follows(before: Books, a: Action, after: Books) {
    Enabled(before, a) && after == Step(before, a)
  }

  // ---- Exactly once --------------------------------------------------------------------------------

  function ForPayment(f: nat): Escrow -> int {
    (e: Escrow) => if e.payment == f then 1 else 0
  }

  function Is(f: nat): nat -> int {
    (g: nat) => if g == f then 1 else 0
  }

  function Fulfilments(b: Books, f: nat): int {
    Sum(b.escrows, ForPayment(f))
  }

  predicate Paid(b: Books, f: nat) {
    f in b.payments && b.payments[f].status == SUCCESS
  }

  /** Escrow i, invoice i and credit i come from one fulfilment, and its parts add up to what was invoiced. */
  ghost predicate Aligned(b: Books) {
    && |b.escrows| == |b.invoices| == |b.credits|
    && forall i :: 0 <= i < |b.escrows| ==> SameFulfilment(b.escrows[i], b.invoices[i], b.credits[i])
  }

  predicate SameFulfilment(e: Escrow, i: Invoice, c: Credit) {
    && e.payment == i.payment == c.payment
    && e.merchant == i.subtotal == c.amount && e.shipping == i.shipping && e.commission == i.commission
       && e.gatewayFee == 0
    && e.merchant + e.shipping + e.commission + e.gatewayFee == i.total
  }

  ghost predicate Priced(b: Books) {
    forall f :: f in b.payments ==>
      b.payments[f].total == b.payments[f].unitPrice + b.payments[f].shipping + b.payments[f].commission
  }

  /** A fulfilment for every time the payment became SUCCESS: the refunds that took it out again, and now. */
  ghost predicate Accounted(b: Books) {
    forall f: nat :: Fulfilments(b, f) == Sum(b.refundLog, Is(f)) + if Paid(b, f) then 1 else 0
  }

  /** Some record of a paid payment carries the amounts its row shows now. */
  ghost predicate Backed(b: Books) {
    forall f: nat :: Paid(b, f) ==>
      exists i :: 0 <= i < |b.invoices| && b.invoices[i].payment == f && b.invoices[i].total == b.payments[f].total
  }

  ghost predicate AtMostOnce(b: Books) {
    forall f: nat :: Fulfilments(b, f) <= 1
  }

  ghost predicate Sound(b: Books) {
    Aligned(b) && Priced(b) && Accounted(b) && Backed(b) && (b.uniqueKeys ==> AtMostOnce(b))
  }

  lemma {:induction false} NoneYet(escrows: seq<Escrow>, f: nat)
    requires forall i :: 0 <= i < |escrows| ==> escrows[i].payment != f
    ensures Sum(escrows, ForPayment(f)) == 0
  {
    if escrows != [] { NoneYet(escrows[..|escrows| - 1], f); }
  }

  lemma RecordedCounts(b: Books, f: nat, g: nat)
    requires f in b.payments
    ensures Fulfilments(Recorded(b, f), g) == Fulfilments(b, g) + if g == f then 1 else 0
  {
    SumAppend(b.escrows, Recorded(b, f).escrows[|b.escrows|], ForPayment(g));
  }

  lemma RecordedBacked(b: Books, f: nat)
    requires f in b.payments && Backed(b) && |b.escrows| == |b.invoices|
    ensures Backed(Recorded(b, f))
  {
    var after := Recorded(b, f);
    forall g: nat | Paid(after, g)
      ensures exists i ::
                && 0 <= i < |after.invoices| && after.invoices[i].payment == g
                && after.invoices[i].total == after.payments[g].total
    {
      if g == f {
        assert after.invoices[|b.invoices|].payment == g;
      } else {
        assert Paid(b, g);
        var i :| 0 <= i < |b.invoices| && b.invoices[i].payment == g && b.invoices[i].total == b.payments[g].total;
        assert after.invoices[i] == b.invoices[i];
      }
    }
  }

  lemma RecordedSound(b: Books, f: nat)
    requires f in b.payments && Sound(b) && !Paid(b, f) && !KeyTaken(b, f, b.payments[f].order)
    ensures Sound(Recorded(b, f))
  {
    var after := Recorded(b, f);
    forall g: nat ensures Fulfilments(after, g) == Sum(after.refundLog, Is(g)) + if Paid(after, g) then 1 else 0 {
      RecordedCounts(b, f, g);
    }
    RecordedBacked(b, f);
    if b.uniqueKeys {
      NoneYet(b.escrows, f);
      forall g: nat ensures Fulfilments(after, g) <= 1 { RecordedCounts(b, f, g); }
    }
  }

  lemma RefundSound(b: Books, f: nat)
    requires f in b.payments && Sound(b)
    ensures Sound(MarkRefunded(b, f))
  {
    var after := MarkRefunded(b, f);
    forall g: nat ensures Fulfilments(after, g) == Sum(after.refundLog, Is(g)) + if Paid(after, g) then 1 else 0 {
      SumAppend(b.refundLog, f, Is(g));
    }
    UnpaidChangeBacked(b, after, f);
  }

  /** Rewriting the row of a payment that ends up unpaid takes nothing from the others. */
  lemma UnpaidChangeBacked(b: Books, after: Books, f: nat)
    requires Backed(b) && after.invoices == b.invoices && !Paid(after, f)
    requires forall g: nat :: g != f ==>
               && (g in after.payments <==> g in b.payments)
               && (g in b.payments ==> after.payments[g] == b.payments[g])
    ensures Backed(after)
  {
    forall g: nat | Paid(after, g)
      ensures exists i ::
                && 0 <= i < |after.invoices| && after.invoices[i].payment == g
                && after.invoices[i].total == after.payments[g].total
    {
      assert Paid(b, g);
    }
  }

  lemma UnpaidChangeSound(b: Books, after: Books, f: nat)
    requires Sound(b) && !Paid(b, f) && !Paid(after, f) && Priced(after)
    requires after == b.(payments := after.payments)
    requires forall g: nat :: g != f ==>
               && (g in after.payments <==> g in b.payments)
               && (g in b.payments ==> after.payments[g] == b.payments[g])
    ensures Sound(after)
  {
    UnpaidChangeBacked(b, after, f);
    forall g: nat ensures Paid(after, g) == Paid(b, g) {}
    assert forall g: nat :: Fulfilments(after, g) == Fulfilments(b, g);
  }

  /** Only the tables Sound speaks of matter to it. */
  lemma SameTablesSound(b: Books, after: Books)
    requires Sound(b) && after == b.(offers := after.offers, orders := after.orders)
    ensures Sound(after)
  {
    assert forall g: nat :: Paid(after, g) == Paid(b, g) && Fulfilments(after, g) == Fulfilments(b, g);
    forall g: nat | Paid(after, g)
      ensures exists i ::
                && 0 <= i < |after.invoices| && after.invoices[i].payment == g
                && after.invoices[i].total == after.payments[g].total
    {
      assert Paid(b, g);
    }
  }

  lemma StepSound(b: Books, a: Action)
    requires Sound(b) && Enabled(b, a)
    ensures Sound(Step(b, a))
  {
    match a
    case IntentCreated(o, f, isOwner, intent) =>
      if CreateIntent(b, o, f, isOwner, intent).1 == Done { UnpaidChangeSound(b, Step(b, a), f); }
    case SuccessWebhook(_, found, received) =>
      if Fulfil(b, found, received).1 == Done {
        RecordedSound(b, found.value);
        SameTablesSound(Recorded(b, found.value), Step(b, a));
      }
    case FailureWebhook(_, found) =>
      if Fail(b, found).1 == Done { UnpaidChangeSound(b, Step(b, a), found.value); }
    case Refunded(f) => RefundSound(b, f);
    case OfferDecided(_, _) => SameTablesSound(b, Step(b, a));
    case OrderMoved(_, _) => SameTablesSound(b, Step(b, a));
  }

  lemma {:induction false} RunSound(states: seq<Books>, actions: seq<Action>)
    requires IsRun(states, actions) && Sound(states[0])
    ensures Sound(states[|actions|]) && states[|actions|].uniqueKeys == states[0].uniqueKeys
  {
    if actions != [] {
      var n := |actions| - 1;
      RunSound(states[..n + 1], actions[..n]);
      assert Follows(states[n], actions[n], states[n + 1]);
      StepSound(states[n], actions[n]);
    }
  }

  ghost predicate Fresh(b: Books) {
    b.payments == map[] && b.escrows == [] && b.invoices == [] && b.credits == [] && b.refundLog == []
  }

  /**
   * Exactly once: after any run from fresh books, a payment never refunded, or any payment when the unique keys are
   * enforced, has exactly one escrow, invoice and credit if it is SUCCESS; one never refunded has none otherwise.
   */
  lemma ExactlyOnce(states: seq<Books>, actions: seq<Action>, f: nat)
    requires IsRun(states, actions) && Fresh(states[0])
    ensures var b := states[|actions|];
            && Aligned(b)
            && (Sum(b.refundLog, Is(f)) == 0 ==> Fulfilments(b, f) == if Paid(b, f) then 1 else 0)
            && (b.uniqueKeys && Paid(b, f) ==> Fulfilments(b, f) == 1)
            && (b.uniqueKeys ==> Fulfilments(b, f) <= 1)
            && (Paid(b, f) ==> exists i ::
                  0 <= i < |b.invoices| && b.invoices[i].payment == f && b.invoices[i].total == b.payments[f].total)
  {
    RunSound(states, actions);
    var b := states[|actions|];
    assert Fulfilments(b, f) == Sum(b.refundLog, Is(f)) + if Paid(b, f) then 1 else 0;
    SumNonNegative(b.refundLog, Is(f));
  }

  /** Without the unique keys a refunded payment can be paid and fulfilled again: its row is reused. */
  lemma RefundedPaidAgain(b: Books, f: nat, intent: nat)
    requires !b.uniqueKeys && Sound(b) && Paid(b, f) && f in b.offers && b.offers[f].accepted
    requires b.offers[f].order in b.orders && b.orders[b.offers[f].order] in PAYABLE
    ensures var refunded := Step(b, Refunded(f));
            var renewed := Step(refunded, IntentCreated(b.offers[f].order, f, true, intent));
            Enabled(renewed, SuccessWebhook(intent, Some(f), None))
            && Fulfilments(Step(renewed, SuccessWebhook(intent, Some(f), None)), f) == Fulfilments(b, f) + 1 >= 2
  {
    var renewed := Step(Step(b, Refunded(f)), IntentCreated(b.offers[f].order, f, true, intent));
    RecordedCounts(renewed, f, f);
    SumNonNegative(b.refundLog, Is(f));
    assert Fulfilments(b, f) == Sum(b.refundLog, Is(f)) + 1;
  }

  // ---- What is billed ------------------------------------------------------------------------------

  ghost predicate BilledFor(o: Offer, order: nat, merchant: int, shipping: int, commission: int) {
    order == o.order && merchant == o.unitPrice && shipping == o.shippingCost && IsQuarter(o.unitPrice, commission)
  }

  /** Every payment row and every escrow row is for an offer and carries that offer's own order and prices. */
  ghost predicate Billed(b: Books) {
    && (forall f :: f in b.payments ==>
          && f in b.offers
          && BilledFor(b.offers[f], b.payments[f].order, b.payments[f].unitPrice, b.payments[f].shipping,
                       b.payments[f].commission))
    && (forall i :: 0 <= i < |b.escrows| ==>
          && b.escrows[i].payment in b.offers
          && BilledFor(b.offers[b.escrows[i].payment], b.escrows[i].order, b.escrows[i].merchant,
                       b.escrows[i].shipping, b.escrows[i].commission))
  }

  lemma StepBilled(b: Books, a: Action)
    requires Billed(b) && Enabled(b, a)
    ensures Billed(Step(b, a))
  {
  }

  lemma {:induction false} RunBilled(states: seq<Books>, actions: seq<Action>)
    requires IsRun(states, actions) && Fresh(states[0])
    ensures Billed(states[|actions|])
  {
    if actions != [] {
      var n := |actions| - 1;
      RunBilled(states[..n + 1], actions[..n]);
      assert Follows(states[n], actions[n], states[n + 1]);
      StepBilled(states[n], actions[n]);
    }
  }

  /**
   * Whatever the webhooks, retries and refunds: every invoice is for some offer, shows its prices and a quarter of the
   * price as commission, and totals the three; the store is credited the price and the escrow holds the same parts.
   */
  lemma BilledAsOffered(states: seq<Books>, actions: seq<Action>, i: nat)
    requires IsRun(states, actions) && Fresh(states[0]) && i < |states[|actions|].invoices|
    ensures var b := states[|actions|];
            var invoice := b.invoices[i];
            && invoice.payment in b.offers
            && var o := b.offers[invoice.payment];
               && invoice.subtotal == o.unitPrice && invoice.shipping == o.shippingCost
               && IsQuarter(o.unitPrice, invoice.commission)
               && invoice.total == o.unitPrice + o.shippingCost + invoice.commission
               && i < |b.credits| && b.credits[i] == Credit(invoice.payment, o.unitPrice)
               && i < |b.escrows| && b.escrows[i].payment == invoice.payment && b.escrows[i].order == o.order
               && b.escrows[i].merchant == o.unitPrice
  {
    RunBilled(states, actions);
    RunSound(states, actions);
    var b := states[|actions|];
    assert SameFulfilment(b.escrows[i], b.invoices[i], b.credits[i]);
  }

  // ---- Under the unique keys -----------------------------------------------------------------------

  function ForOrder(order: nat): Escrow -> int {
    (e: Escrow) => if e.order == order then 1 else 0
  }

  lemma {:induction false} CountZeroIff(escrows: seq<Escrow>, f: nat, order: nat)
    ensures Sum(escrows, ForPayment(f)) >= 0 && Sum(escrows, ForOrder(order)) >= 0
    ensures Sum(escrows, ForPayment(f)) == Sum(escrows, ForOrder(order)) == 0
            <==> forall i :: 0 <= i < |escrows| ==> escrows[i].payment != f && escrows[i].order != order
  {
    if escrows != [] {
      var n := |escrows| - 1;
      CountZeroIff(escrows[..n], f, order);
      assert forall i :: 0 <= i < n ==> escrows[..n][i] == escrows[i];
    }
  }

  /**
   * A success webhook fulfils exactly when the amount is right, the row is not SUCCESS, and, if the keys are enforced,
   * neither its payment nor its order has an escrow yet.
   */
  lemma FulfilledIff(b: Books, f: nat, received: Option<int>)
    requires f in b.payments
    ensures Fulfil(b, Some(f), received).1 == Done
            <==> && (received.Some? ==> received.value == b.payments[f].total)
                 && b.payments[f].status != SUCCESS
                 && (b.uniqueKeys ==> Fulfilments(b, f) == 0 && Sum(b.escrows, ForOrder(b.payments[f].order)) == 0)
    ensures Fulfil(b, Some(f), received).1 != Done ==> Fulfil(b, Some(f), received).0 == b
  {
    CountZeroIff(b.escrows, f, b.payments[f].order);
  }

  /** Every escrow is filed under the order of its payment, and under the keys no order has two. */
  ghost predicate Filed(b: Books) {
    && (forall i :: 0 <= i < |b.escrows| ==>
          b.escrows[i].payment in b.payments && b.payments[b.escrows[i].payment].order == b.escrows[i].order)
    && (b.uniqueKeys ==> forall o: nat :: Sum(b.escrows, ForOrder(o)) <= 1)
  }

  /** Payment rows stay and keep their order. */
  ghost predicate KeepsRows(b: Books, after: Books) {
    forall f :: f in b.payments ==> f in after.payments && after.payments[f].order == b.payments[f].order
  }

  lemma FulfilFiled(b: Books, found: Option<nat>, received: Option<int>)
    requires Filed(b) && (found.Some? ==> found.value in b.payments)
    ensures Filed(Fulfil(b, found, received).0)
  {
    if Fulfil(b, found, received).1 == Done {
      var f, p := found.value, b.payments[found.value];
      FulfilledIff(b, f, received);
      forall o: nat ensures Sum(Recorded(b, f).escrows, ForOrder(o)) == Sum(b.escrows, ForOrder(o))
             + if o == p.order then 1 else 0 {
        SumAppend(b.escrows, Escrow(f, p.order, p.unitPrice, p.shipping, p.commission, 0), ForOrder(o));
      }
    }
  }

  lemma StepFiled(b: Books, a: Action)
    requires Filed(b) && Enabled(b, a)
    ensures Filed(Step(b, a))
  {
    if a.SuccessWebhook? {
      FulfilFiled(b, a.found, a.received);
    } else {
      assert Step(b, a).escrows == b.escrows && Step(b, a).uniqueKeys == b.uniqueKeys && KeepsRows(b, Step(b, a));
    }
  }

  /** Under the keys an order has at most one escrow over any run from fresh books. */
  lemma {:induction false} RunFiled(states: seq<Books>, actions: seq<Action>)
    requires IsRun(states, actions) && Fresh(states[0])
    ensures Filed(states[|actions|])
  {
    if actions != [] {
      var n := |actions| - 1;
      RunFiled(states[..n + 1], actions[..n]);
      assert Follows(states[n], actions[n], states[n + 1]);
      StepFiled(states[n], actions[n]);
    }
  }

  lemma {:induction false} EscrowOf(escrows: seq<Escrow>, f: nat) returns (i: nat)
    requires Sum(escrows, ForPayment(f)) > 0
    ensures i < |escrows| && escrows[i].payment == f
  {
    var n := |escrows| - 1;
    if escrows[n].payment == f { i := n; } else { i := EscrowOf(escrows[..n], f); }
  }

  lemma {:induction false} TwoCount(escrows: seq<Escrow>, i: nat, j: nat, o: nat)
    requires i < j < |escrows| && escrows[i].order == escrows[j].order == o
    ensures Sum(escrows, ForOrder(o)) >= 2
  {
    var n := |escrows| - 1;
    if j < n {
      TwoCount(escrows[..n], i, j, o);
    } else {
      SumNonNegative(escrows[..n], ForOrder(o));
      assert escrows[..n][i] in escrows[..n];
    }
  }

  /** Under the keys an order never has two paid offers. */
  lemma OnePaidOffer(b: Books, o: nat, f: nat, g: nat)
    requires Sound(b) && Filed(b) && b.uniqueKeys && f in PaidOffers(b, o) && g in PaidOffers(b, o)
    ensures f == g
  {
    assert Paid(b, f) && Paid(b, g);
    SumNonNegative(b.refundLog, Is(f));
    SumNonNegative(b.refundLog, Is(g));
    assert Fulfilments(b, f) > 0 && Fulfilments(b, g) > 0;
    var i := EscrowOf(b.escrows, f);
    var j := EscrowOf(b.escrows, g);
    if f != g { if i < j { TwoCount(b.escrows, i, j, o); } else { TwoCount(b.escrows, j, i, o); } }
  }

  /**
   * Under the keys a fulfilment opens its order exactly when the order has at most one accepted offer: an order with
   * two accepted offers is never opened by the webhook, whatever else happened to it.
   */
  lemma KeysOpenIff(states: seq<Books>, actions: seq<Action>, f: nat, received: Option<int>)
    requires IsRun(states, actions) && Fresh(states[0]) && states[0].uniqueKeys
    requires var b := states[|actions|];
             f in b.payments && Fulfil(b, Some(f), received).1 == Done
    ensures var b := states[|actions|];
            var order, after := b.payments[f].order, Fulfil(b, Some(f), received).0;
            && PaidOffers(after, order) == {f}
            && after.orders == if |AcceptedOffers(b, order)| <= 1 then b.orders[order := PREPARATION] else b.orders
  {
    RunSound(states, actions);
    RunFiled(states, actions);
    OnlyOnePaid(states[|actions|], f, received);
  }

  lemma OnlyOnePaid(b: Books, f: nat, received: Option<int>)
    requires Sound(b) && Filed(b) && b.uniqueKeys && f in b.payments && Fulfil(b, Some(f), received).1 == Done
    ensures var order, after := b.payments[f].order, Fulfil(b, Some(f), received).0;
            && PaidOffers(after, order) == {f}
            && after.orders == if |AcceptedOffers(b, order)| <= 1 then b.orders[order := PREPARATION] else b.orders
  {
    var order, recorded := b.payments[f].order, Recorded(b, f);
    RecordedSound(b, f);
    FulfilFiled(b, Some(f), received);
    RecordedOffers(b, f);
    forall g | g in PaidOffers(recorded, order) ensures g == f { OnePaidOffer(recorded, order, f, g); }
    assert PaidOffers(recorded, order) == {f};
    assert PaidOffers(Opened(recorded, order), order) == PaidOffers(recorded, order);
  }

  // ---- Which webhook reaches which payment -----------------------------------------------------------

  /** The intent last created for an offer in a run; a new one takes the place of an old one in the offer's row. */
  function LastIntent(states: seq<Books>, actions: seq<Action>, f: nat): Option<nat>
    requires |states| == |actions| + 1
  {
    if actions == [] then None
    else
      var n := |actions| - 1;
      if Creates(states[n], actions[n], f) then Some(actions[n].intent)
          else LastIntent(states[..n + 1], actions[..n], f)
  }

  predicate Creates(b: Books, a: Action, f: nat) {
    a.IntentCreated? && a.offer == f && CreateIntent(b, a.order, f, a.isOwner, a.intent).1 == Done
  }

  lemma StepIntents(b: Books, a: Action, f: nat)
    requires Enabled(b, a)
    ensures var after := Step(b, a);
            if Creates(b, a, f) then f in after.payments && after.payments[f].intent == a.intent
            else && (f in after.payments <==> f in b.payments)
                 && (f in b.payments ==> after.payments[f].intent == b.payments[f].intent)
  {
  }

  lemma {:induction false} RowsCarryLastIntents(states: seq<Books>, actions: seq<Action>, f: nat)
    requires IsRun(states, actions) && Fresh(states[0])
    ensures var b, last := states[|actions|], LastIntent(states, actions, f);
            if last.None? then f !in b.payments else f in b.payments && b.payments[f].intent == last.value
  {
    if actions != [] {
      var n := |actions| - 1;
      RowsCarryLastIntents(states[..n + 1], actions[..n], f);
      assert Follows(states[n], actions[n], states[n + 1]);
      StepIntents(states[n], actions[n], f);
    }
  }

  ghost predicate IsLast(states: seq<Books>, actions: seq<Action>, f: nat, intent: nat)
    requires |states| == |actions| + 1
  {
    LastIntent(states, actions, f) == Some(intent)
  }

  /**
   * A success webhook reaches a payment exactly if its intent is the last one created for some offer. One for an intent
   * that has been replaced finds no row and changes nothing, although the customer has paid it.
   */
  lemma WebhookReachesIff(states: seq<Books>, actions: seq<Action>, intent: nat, found: Option<nat>,
                          received: Option<int>)
    requires IsRun(states, actions) && Fresh(states[0]) && Finds(states[|actions|], intent, found)
    ensures found.Some? ==> IsLast(states, actions, found.value, intent)
    ensures found.Some? <==> exists f: nat :: IsLast(states, actions, f, intent)
    ensures found.None? ==> Fulfil(states[|actions|], found, received) == (states[|actions|], NotFound)
  {
    if found.Some? {
      var f := found.value;
      RowsCarryLastIntents(states, actions, f);
      assert IsLast(states, actions, f, intent);
    } else {
      forall f: nat ensures !IsLast(states, actions, f, intent) { RowsCarryLastIntents(states, actions, f); }
    }
  }

  /**
   * At least once: a success webhook with the right amount that reaches a payment leaves it SUCCESS, unless it was not
   * and the unique keys refuse its escrow.
   */
  lemma ReachedIsPaid(b: Books, f: nat, received: Option<int>)
    requires f in b.payments && (received.Some? ==> received.value == b.payments[f].total)
    ensures Paid(Fulfil(b, Some(f), received).0, f)
            <==> || Paid(b, f)
                 || (b.uniqueKeys ==> Fulfilments(b, f) == 0 && Sum(b.escrows, ForOrder(b.payments[f].order)) == 0)
  {
    FulfilledIff(b, f, received);
  }

  /** A second intent for an unpaid offer makes the first one's webhook useless. */
  lemma ReplacedIntentLost(b: Books, order: nat, f: nat, first: nat, second: nat, received: Option<int>)
    requires first != second && forall g :: g in b.payments ==> b.payments[g].intent != first
    requires CreateIntent(b, order, f, true, first).1 == Done
    ensures var twice := Step(Step(b, IntentCreated(order, f, true, first)), IntentCreated(order, f, true, second));
            && f in twice.payments && twice.payments[f].intent == second && twice.payments[f].status == PENDING
            && forall found :: Finds(twice, first, found) ==> Fulfil(twice, found, received) == (twice, NotFound)
  {
  }

  // ---- The PREPARATION gate ------------------------------------------------------------------------

  lemma CardinalitySplit(a: set<nat>, b: set<nat>)
    ensures |a| == |a * b| + |a - b|
  {
    assert a == (a * b) + (a - b);
  }

  /**
   * The gate against what it is for, with no hypothesis: it opens exactly when the unpaid accepted offers are no more
   * than the paid offers that are no longer accepted.
   */
  lemma GateCounts(b: Books, order: nat)
    ensures var paid, accepted := PaidOffers(b, order), AcceptedOffers(b, order);
            AllPaidGate(b, order) <==> |accepted - paid| <= |paid - accepted|
  {
    var paid, accepted := PaidOffers(b, order), AcceptedOffers(b, order);
    CardinalitySplit(paid, accepted);
    CardinalitySplit(accepted, paid);
    assert paid * accepted == accepted * paid;
  }

  /** While every paid offer is still accepted, the gate means that every accepted offer is paid. */
  lemma GateIsAllPaid(b: Books, order: nat)
    requires PaidOffers(b, order) <= AcceptedOffers(b, order)
    ensures AllPaidGate(b, order) <==> AcceptedOffers(b, order) <= PaidOffers(b, order)
  {
    GateCounts(b, order);
    var paid, accepted := PaidOffers(b, order), AcceptedOffers(b, order);
    assert paid - accepted == {};
    assert |accepted - paid| == 0 <==> accepted - paid == {};
  }

  /** The form of the mock card path counts paid rows among accepted offers only, and is right without that proviso. */
  lemma MockGateIsAllPaid(b: Books, order: nat)
    ensures |PaidOffers(b, order) * AcceptedOffers(b, order)| >= |AcceptedOffers(b, order)|
            <==> AcceptedOffers(b, order) <= PaidOffers(b, order)
  {
    var paid, accepted := PaidOffers(b, order), AcceptedOffers(b, order);
    CardinalitySplit(accepted, paid);
    assert paid * accepted == accepted * paid;
    if accepted - paid == {} {
      forall f | f in accepted ensures f in paid { assert f !in accepted - paid; }
    }
  }

  /** The two forms differ exactly when something accepted is unpaid and as much that is paid was un-accepted. */
  lemma GatesDifferIff(b: Books, order: nat)
    ensures var paid, accepted := PaidOffers(b, order), AcceptedOffers(b, order);
            AllPaidGate(b, order) != (|paid * accepted| >= |accepted|) <==> 0 < |accepted - paid| <= |paid - accepted|
  {
    var paid, accepted := PaidOffers(b, order), AcceptedOffers(b, order);
    GateCounts(b, order);
    CardinalitySplit(accepted, paid);
    assert paid * accepted == accepted * paid;
  }

  /** No offer is rejected once it has a payment row. */
  ghost predicate Careful(b: Books, a: Action) {
    a.OfferDecided? && !a.accepted ==> a.offer !in b.payments
  }

  ghost predicate PayersAccepted(b: Books) {
    forall f :: f in b.payments ==> f in b.offers && b.offers[f].accepted && b.offers[f].order == b.payments[f].order
  }

  lemma {:induction false} RunPayersAccepted(states: seq<Books>, actions: seq<Action>)
    requires IsRun(states, actions) && PayersAccepted(states[0])
    requires forall i :: 0 <= i < |actions| ==> Careful(states[i], actions[i])
    ensures PayersAccepted(states[|actions|])
  {
    if actions != [] {
      var n := |actions| - 1;
      RunPayersAccepted(states[..n + 1], actions[..n]);
      assert Follows(states[n], actions[n], states[n + 1]) && Careful(states[n], actions[n]);
    }
  }

  /** In such runs a fulfilment opens PREPARATION exactly when it leaves no accepted offer of the order unpaid. */
  lemma PreparationMeansAllPaid(states: seq<Books>, actions: seq<Action>, found: nat, received: Option<int>)
    requires IsRun(states, actions) && PayersAccepted(states[0])
             && (forall i :: 0 <= i < |actions| ==> Careful(states[i], actions[i]))
    requires var b := states[|actions|];
             found in b.payments && b.payments[found].order in b.orders
                 && b.orders[b.payments[found].order] != PREPARATION
             && Fulfil(b, Some(found), received).1 == Done
    ensures var b := states[|actions|];
            var order, after := b.payments[found].order, Fulfil(b, Some(found), received).0;
            after.orders[order] == PREPARATION <==> AcceptedOffers(after, order) <= PaidOffers(after, order)
  {
    RunPayersAccepted(states, actions);
    var b := states[|actions|];
    var order, paid := b.payments[found].order, Recorded(b, found);
    assert PaidOffers(paid, order) <= AcceptedOffers(paid, order);
    GateIsAllPaid(paid, order);
    assert PaidOffers(Opened(paid, order), order) == PaidOffers(paid, order);
  }

  lemma FulfilIs(b: Books, f: nat, received: Option<int>)
    requires f in b.payments
    ensures Fulfil(b, Some(f), received).0
            == if Fulfil(b, Some(f), received).1 == Done then Opened(Recorded(b, f), b.payments[f].order) else b
  {
  }

  lemma OpenedIff(b: Books, order: nat)
    requires order in b.orders && b.orders[order] != PREPARATION
    ensures var paid, accepted, after := PaidOffers(b, order), AcceptedOffers(b, order), Opened(b, order).orders;
            && order in after
            && (after[order] == PREPARATION <==> |accepted - paid| <= |paid - accepted|)
            && (after[order] != PREPARATION ==> after == b.orders)
  {
    GateCounts(b, order);
  }

  lemma RecordedOffers(b: Books, f: nat)
    requires f in b.payments
    ensures var order, after := b.payments[f].order, Recorded(b, f);
            && PaidOffers(after, order) == PaidOffers(b, order) + {f}
            && AcceptedOffers(after, order) == AcceptedOffers(b, order)
  {
  }

  /**
   * Exactly when a fulfilment moves its order to PREPARATION, from any status and for any books: the row can be
   * fulfilled, and with it paid the unpaid accepted offers are no more than the paid ones no longer accepted. The
   * status plays no part.
   */
  lemma OpensIff(b: Books, f: nat, received: Option<int>)
    requires f in b.payments && b.payments[f].order in b.orders && b.orders[b.payments[f].order] != PREPARATION
    ensures var order := b.payments[f].order;
            var after, paid, accepted := Fulfil(b, Some(f), received).0, PaidOffers(b, order) + {f},
                AcceptedOffers(b, order);
            && order in after.orders
            && (after.orders[order] == PREPARATION
                <==> Fulfil(b, Some(f), received).1 == Done && |accepted - paid| <= |paid - accepted|)
            && (after.orders[order] != PREPARATION ==> after.orders == b.orders)
  {
    FulfilIs(b, f, received);
    RecordedOffers(b, f);
    OpenedIff(Recorded(b, f), b.payments[f].order);
  }

  /** Books in which nothing has been paid yet, with one order to be paid for. */
  function Unpaid(offers: map<nat, Offer>): Books {
    Books(offers, map[0 := AWAITING_PAYMENT], map[], [], [], [], false, [])
  }

  /** An intent and its webhook for an accepted offer without a row: one fulfilment, and the gate. */
  lemma PayingRuns(b: Books, f: nat, intent: nat)
    requires !b.uniqueKeys && 0 in b.orders && b.orders[0] in PAYABLE
    requires f in b.offers && b.offers[f].order == 0 && b.offers[f].accepted && f !in b.payments
    requires forall g :: g in b.payments ==> b.payments[g].intent != intent
    ensures var pending := b.(payments := b.payments[f := IntentRow(0, b.offers[f], intent)]);
            && Follows(b, IntentCreated(0, f, true, intent), pending)
            && Follows(pending, SuccessWebhook(intent, Some(f), None), Opened(Recorded(pending, f), 0))
  {
  }

  /** The first paid and rejected, the second paid, the third neither. */
  lemma TwoOfThree(b: Books, f: nat, g: nat, h: nat)
    requires PaidOffers(b, 0) == {f, g} && AcceptedOffers(b, 0) == {g, h} && f != g && g != h && f != h && 0 in b.orders
    ensures Opened(b, 0) == b.(orders := b.orders[0 := PREPARATION])
  {
    GateCounts(b, 0);
    assert {g, h} - {f, g} == {h} && {f, g} - {g, h} == {f};
  }

  /** The first of three accepted offers is paid: the order stays where it is. */
  function FirstPaid(x: Offer, y: Offer, z: Offer): Books {
    var b := Unpaid(map[0 := x, 1 := y, 2 := z]);
    Recorded(b.(payments := map[0 := IntentRow(0, x, 10)]), 0)
  }

  lemma FirstPaidRuns(x: Offer, y: Offer, z: Offer)
    requires x.order == y.order == z.order == 0 && x.accepted && y.accepted && z.accepted
    ensures var b := Unpaid(map[0 := x, 1 := y, 2 := z]);
            var pending := b.(payments := map[0 := IntentRow(0, x, 10)]);
            && Follows(b, IntentCreated(0, 0, true, 10), pending)
            && Follows(pending, SuccessWebhook(10, Some(0), None), FirstPaid(x, y, z))
  {
    PayingRuns(Unpaid(map[0 := x, 1 := y, 2 := z]), 0, 10);
    assert PaidOffers(FirstPaid(x, y, z), 0) == {0} && AcceptedOffers(FirstPaid(x, y, z), 0) == {0, 1, 2};
  }

  /** It is rejected, and the second is paid. */
  function FirstRejected(x: Offer, y: Offer, z: Offer): Books {
    FirstPaid(x, y, z).(offers := map[0 := x.(accepted := false), 1 := y, 2 := z])
  }

  function SecondPending(x: Offer, y: Offer, z: Offer): Books {
    var b := FirstRejected(x, y, z);
    b.(payments := b.payments[1 := IntentRow(0, y, 11)])
  }

  lemma SecondPaidRuns(x: Offer, y: Offer, z: Offer)
    requires x.order == y.order == z.order == 0 && x.accepted && y.accepted && z.accepted
    ensures Follows(FirstPaid(x, y, z), OfferDecided(0, false), FirstRejected(x, y, z))
    ensures Follows(FirstRejected(x, y, z), IntentCreated(0, 1, true, 11), SecondPending(x, y, z))
    ensures Follows(SecondPending(x, y, z), SuccessWebhook(11, Some(1), None),
                    Opened(Recorded(SecondPending(x, y, z), 1), 0))
  {
    PayingRuns(FirstRejected(x, y, z), 1, 11);
  }

  lemma SecondPaidOpens(x: Offer, y: Offer, z: Offer)
    requires x.order == y.order == z.order == 0 && x.accepted && y.accepted && z.accepted
    ensures var end := Opened(Recorded(SecondPending(x, y, z), 1), 0);
            && 0 in end.orders && end.orders[0] == PREPARATION
            && PaidOffers(end, 0) == {0, 1} && AcceptedOffers(end, 0) == {1, 2}
  {
    var paid := Recorded(SecondPending(x, y, z), 1);
    assert PaidOffers(paid, 0) == {0, 1} && AcceptedOffers(paid, 0) == {1, 2};
    TwoOfThree(paid, 0, 1, 2);
    assert PaidOffers(Opened(paid, 0), 0) == {0, 1} && AcceptedOffers(Opened(paid, 0), 0) == {1, 2};
  }

  /**
   * Three accepted offers; the first is paid and then rejected, then the second is paid. That fulfilment opens
   * PREPARATION although the third is accepted and unpaid.
   */
  lemma RejectedAfterPayment(x: Offer, y: Offer, z: Offer) returns (states: seq<Books>, actions: seq<Action>)
    requires x.order == y.order == z.order == 0 && x.accepted && y.accepted && z.accepted
    ensures IsRun(states, actions) && |actions| == 5 && actions[4] == SuccessWebhook(11, Some(1), None)
    ensures Fresh(states[0]) && states[0] == Unpaid(map[0 := x, 1 := y, 2 := z])
    ensures 0 in states[4].orders && states[4].orders[0] == AWAITING_PAYMENT
    ensures 0 in states[5].orders && states[5].orders[0] == PREPARATION
    ensures 2 in AcceptedOffers(states[5], 0) && 2 !in PaidOffers(states[5], 0)
  {
    FirstPaidRuns(x, y, z);
    SecondPaidRuns(x, y, z);
    SecondPaidOpens(x, y, z);
    var b := Unpaid(map[0 := x, 1 := y, 2 := z]);
    states := [b, b.(payments := map[0 := IntentRow(0, x, 10)]), FirstPaid(x, y, z), FirstRejected(x, y, z),
               SecondPending(x, y, z), Opened(Recorded(SecondPending(x, y, z), 1), 0)];
    actions := [IntentCreated(0, 0, true, 10), SuccessWebhook(10, Some(0), None), OfferDecided(0, false),
                IntentCreated(0, 1, true, 11), SuccessWebhook(11, Some(1), None)];
  }

  lemma OnlyOfferOpens(b: Books)
    requires 0 in b.orders && b.offers.Keys == b.payments.Keys == {0}
    requires b.payments[0].order == 0 && b.payments[0].status == SUCCESS
    ensures Opened(b, 0) == b.(orders := b.orders[0 := PREPARATION])
  {
    assert PaidOffers(b, 0) == {0};
    assert AcceptedOffers(b, 0) <= {0};
    assert |AcceptedOffers(b, 0)| <= 1 by {
      if 0 in AcceptedOffers(b, 0) { assert AcceptedOffers(b, 0) == {0}; } else { assert AcceptedOffers(b, 0) == {}; }
    }
  }

  function CancelledPending(x: Offer): Books {
    Unpaid(map[0 := x]).(payments := map[0 := IntentRow(0, x, 10)], orders := map[0 := CANCELLED])
  }

  lemma CancelledRuns(x: Offer)
    requires x.order == 0 && x.accepted
    ensures var pending := CancelledPending(x).(orders := map[0 := AWAITING_PAYMENT]);
            && Follows(Unpaid(map[0 := x]), IntentCreated(0, 0, true, 10), pending)
            && Follows(pending, OrderMoved(0, CANCELLED), CancelledPending(x))
  {
    PayingRuns(Unpaid(map[0 := x]), 0, 10);
  }

  lemma CancelledFulfilled(x: Offer)
    ensures var end := Recorded(CancelledPending(x), 0).(orders := map[0 := PREPARATION]);
            Follows(CancelledPending(x), SuccessWebhook(10, Some(0), None), end)
  {
    var recorded := Recorded(CancelledPending(x), 0);
    OnlyOfferOpens(recorded);
    FulfilIs(CancelledPending(x), 0, None);
    assert recorded.orders[0 := PREPARATION] == map[0 := PREPARATION];
  }

  /** An intent is created, the order is cancelled, the webhook arrives: the cancelled order is in PREPARATION. */
  lemma CancelledOrderRevived(x: Offer) returns (states: seq<Books>, actions: seq<Action>)
    requires x.order == 0 && x.accepted
    ensures IsRun(states, actions) && |actions| == 3 && actions[1] == OrderMoved(0, CANCELLED)
    ensures Fresh(states[0]) && states[0] == Unpaid(map[0 := x])
    ensures 0 in states[2].orders && states[2].orders[0] == CANCELLED && PREPARATION !in Allowed(CANCELLED)
    ensures 0 in states[3].orders && states[3].orders[0] == PREPARATION
  {
    CancelledRuns(x);
    CancelledFulfilled(x);
    var b := CancelledPending(x);
    states := [Unpaid(map[0 := x]), b.(orders := map[0 := AWAITING_PAYMENT]), b,
               Recorded(b, 0).(orders := map[0 := PREPARATION])];
    actions := [IntentCreated(0, 0, true, 10), OrderMoved(0, CANCELLED), SuccessWebhook(10, Some(0), None)];
  }

  // ---- The service ---------------------------------------------------------------------------------

  class PaymentsService {
    var books: Books

    constructor (books: Books)
      ensures this.books == books
    {
      this.books := books;
    }

    method FindByIntent(intent: nat) returns (found: Option<nat>)
      ensures Finds(books, intent, found)
    {
      var rows := set f | f in books.payments && books.payments[f].intent == intent;
      if rows == {} {
        forall f | f in books.payments ensures books.payments[f].intent != intent { assert f !in rows; }
        return None;
      }
      var f :| f in rows;
      return Some(f);
    }

    /**
     * Goes through exactly for the owner of a payable order and an accepted offer of it that is not paid yet. The
     * offer's one row is then pending under the new intent, with the offer's prices and the sum of the three amounts.
     */
    method CreatePaymentIntent(order: nat, offer: nat, isOwner: bool, intent: nat) returns (outcome: Outcome)
      modifies this
      ensures (books, outcome) == CreateIntent(old(books), order, offer, isOwner, intent)
      ensures outcome == Done
              <==> && order in old(books).orders && isOwner
                   && old(books).orders[order] in {AWAITING_PAYMENT, AWAITING_OFFERS, COLLECTING_OFFERS,
                                                   AWAITING_SELECTION, PARTIALLY_PAID}
                   && offer in old(books).offers && old(books).offers[offer].order == order
                   && old(books).offers[offer].accepted
                   && (offer in old(books).payments ==> old(books).payments[offer].status != SUCCESS)
      ensures outcome != Done ==> books == old(books)
      ensures outcome == Done ==>
                && offer in books.payments
                && var row, o := books.payments[offer], old(books).offers[offer];
                   && row.unitPrice == o.unitPrice && row.shipping == o.shippingCost
                   && IsQuarter(o.unitPrice, row.commission)
                   && row.total == o.unitPrice + o.shippingCost + row.commission
                   && row.status == PENDING && row.intent == intent
                   && (row.order == if offer in old(books).payments then old(books).payments[offer].order else order)
      ensures outcome == Done ==>
                && books == old(books).(payments := old(books).payments[offer := books.payments[offer]])
    {
      if order !in books.orders { return NotFound; }
      if !isOwner { return Forbidden; }
      if books.orders[order] !in PAYABLE { return BadStatus; }
      if offer !in books.offers || books.offers[offer].order != order
          || !books.offers[offer].accepted { return NotFound; }
      if offer in books.payments && books.payments[offer].status == SUCCESS { return AlreadyPaid; }
      var row := books.offers[offer];
      var commission := Commission(row.unitPrice);
      var total := row.unitPrice + row.shippingCost + commission;
      var payment := Payment(order, intent, row.unitPrice, row.shippingCost, commission, total, PENDING);
      if offer in books.payments {
        var existing := books.payments[offer];
        payment := existing.(intent := intent, status := PENDING, total := total, unitPrice := row.unitPrice,
                             shipping := row.shippingCost, commission := commission);
      }
      books := books.(payments := books.payments[offer := payment]);
      outcome := Done;
    }

    /** A fulfilment takes every amount from the payment row; any other answer leaves the books alone. */
    method FulfillStripePayment(intent: nat, received: Option<int>) returns (outcome: Outcome, found: Option<nat>)
      modifies this
      ensures Finds(old(books), intent, found)
      ensures (books, outcome) == Fulfil(old(books), found, received)
      ensures outcome != Done ==> books == old(books)
      ensures outcome == Done ==>
                && found.Some?
                && var f := found.value;
                   var row := old(books).payments[f];
                   && row.status != SUCCESS && (received.None? || received.value == row.total)
                   && books.payments == old(books).payments[f := row.(status := SUCCESS)]
                   && books.escrows == old(books).escrows
                                       + [Escrow(f, row.order, row.unitPrice, row.shipping, row.commission, 0)]
                   && books.credits == old(books).credits + [Credit(f, row.unitPrice)]
                   && books.invoices == old(books).invoices
                                        + [Invoice(f, row.unitPrice, row.shipping, row.commission, row.total)]
                   && books.offers == old(books).offers && books.refundLog == old(books).refundLog
    {
      found := FindByIntent(intent);
      if found.None? { return NotFound, found; }
      var f := found.value;
      var payment := books.payments[f];
      if received.Some? && received.value != payment.total { return AmountMismatch, found; }
      if payment.status == SUCCESS { return Skipped, found; }
      var tx := books;
      tx := tx.(payments := tx.payments[f := payment.(status := SUCCESS)]);
      if KeyTaken(books, f, payment.order) { return DuplicateKey, found; }
      tx := tx.(escrows := tx.escrows
                + [Escrow(f, payment.order, payment.unitPrice, payment.shipping, payment.commission, 0)]);
      tx := tx.(credits := tx.credits + [Credit(f, payment.unitPrice)]);
      tx := tx.(invoices := tx.invoices
                + [Invoice(f, payment.unitPrice, payment.shipping, payment.commission, payment.total)]);
      if |PaidOffers(tx, payment.order)| >= |AcceptedOffers(tx, payment.order)| {
        tx := tx.(orders := tx.orders[payment.order := PREPARATION]);
      }
      books := tx;
      outcome := Done;
    }

    method HandlePaymentFailure(intent: nat) returns (outcome: Outcome, found: Option<nat>)
      modifies this
      ensures Finds(old(books), intent, found)
      ensures (books, outcome) == Fail(old(books), found)
      ensures outcome == Done <==> found.Some? && old(books).payments[found.value].status == PENDING
      ensures books == if outcome != Done then old(books)
                       else old(books).(payments := old(books).payments[found.value :=
                                        old(books).payments[found.value].(status := FAILED)])
    {
      found := FindByIntent(intent);
      if found.None? { return NotFound, found; }
      var payment := books.payments[found.value];
      if payment.status != PENDING { return Skipped, found; }
      books := books.(payments := books.payments[found.value := payment.(status := FAILED)]);
      outcome := Done;
    }
  }
}
