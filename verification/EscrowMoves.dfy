/**
 * What each operation of the escrow ledger writes, row by row: which escrow changes status, which store's balances
 * move and by how much, what the platform earns, and which inputs decide it.
 */
module EscrowMoves {
  import opened Lists
  import opened EscrowLedger
  import opened MoneyStates

  /** Of all escrows only e changes, and of e only the status. */
  ghost predicate OnlyBecomes(before: Ledger, after: Ledger, e: nat, to: EscrowStatus)
    requires e < |before.escrows|
  {
    && |after.escrows| == |before.escrows| && after.escrows[e] == before.escrows[e].(status := to)
    && forall i :: 0 <= i < |before.escrows| && i != e ==> after.escrows[i] == before.escrows[i]
  }

  /** Of all stores only k changes, and its balances by these amounts. */
  ghost predicate OnlyStore(before: Ledger, after: Ledger, k: nat, pending: int, frozen: int, balance: int)
    requires k < |before.stores|
  {
    && |after.stores| == |before.stores|
    && after.stores[k].pending == before.stores[k].pending + pending
    && after.stores[k].frozen == before.stores[k].frozen + frozen
    && after.stores[k].balance == before.stores[k].balance + balance
    && after.stores[k].hasStripeAccount == before.stores[k].hasStripeAccount
    && forall i :: 0 <= i < |before.stores| && i != k ==> after.stores[i] == before.stores[i]
  }

  ghost predicate EveryPlatformRowEarns(before: Ledger, after: Ledger, commission: int, fee: int) {
    && |after.platform| == |before.platform|
    && forall w :: 0 <= w < |before.platform| ==>
         && after.platform[w].commission == before.platform[w].commission + commission
         && after.platform[w].fees == before.platform[w].fees + fee
         && after.platform[w].revenue == before.platform[w].revenue + commission + fee
         && after.platform[w].fined == before.platform[w].fined
  }

  /** Escrow e is paid out to store k: its share turns from pending to withdrawable, the platform earns the rest. */
  ghost predicate PaidOut(before: Ledger, after: Ledger, e: nat, k: nat)
    requires e < |before.escrows| && k < |before.stores|
  {
    var row := before.escrows[e];
    && OnlyBecomes(before, after, e, RELEASED)
    && OnlyStore(before, after, k, -row.merchant, 0, row.merchant)
    && EveryPlatformRowEarns(before, after, row.commission, row.gatewayFee)
    && after.orders == before.orders
  }

  lemma RealizePays(db: Ledger, e: nat, k: nat)
    requires e < |db.escrows| && k < |db.stores| && db.escrows[e].status == HELD
    ensures PaidOut(db, Realize(db, e, k), e, k)
    ensures var after := Realize(db, e, k); after.payments == db.payments && after.rows == db.rows
  {
  }

  // ---- Release, freeze, refund ----------------------------------------------------------------------

  /** The store of the offer that was paid for. */
  function OfferStore(db: Ledger, e: nat): (k: nat)
    requires WellFormed(db) && e < |db.escrows|
    ensures k < |db.stores|
  {
    assert db.escrows[e] in db.escrows;
    assert db.payments[db.escrows[e].payment] in db.payments;
    db.payments[db.escrows[e].payment].store
  }

  /** The store of the order, if it has one. */
  function OrderStore(db: Ledger, e: nat): (k: Option<nat>)
    requires WellFormed(db) && e < |db.escrows|
    ensures k.Some? ==> k.value < |db.stores|
  {
    assert db.escrows[e] in db.escrows;
    assert db.orders[db.escrows[e].order] in db.orders;
    db.orders[db.escrows[e].order].store
  }

  /** Of all payments only that of escrow e changes, into `row`. */
  ghost predicate OnlyPayment(before: Ledger, after: Ledger, e: nat, row: Payment)
    requires WellFormed(before) && e < |before.escrows|
  {
    && |after.payments| == |before.payments|
    && forall p :: 0 <= p < |before.payments| ==>
         after.payments[p] == if p == before.escrows[e].payment then row else before.payments[p]
  }

  function PaymentOf(db: Ledger, e: nat): Payment
    requires WellFormed(db) && e < |db.escrows|
  {
    assert db.escrows[e] in db.escrows;
    db.payments[db.escrows[e].payment]
  }

  /**
   * A release goes through exactly if a row was found, the offer's store has an account and the transfer succeeds. It
   * pays the row out to that store, under one payout row of the merchant share and the balance it leads to.
   */
  lemma ReleaseWrites(db: Ledger, pick: Option<nat>, transferOk: bool)
    requires WellFormed(db)
    requires pick.Some? ==> pick.value < |db.escrows| && db.escrows[pick.value].status == HELD
    ensures var (after, outcome) := Release(db, pick, transferOk);
            && (outcome == NoEscrow <==> pick.None?)
            && (outcome == NoStripeAccount
                <==> pick.Some? && !db.stores[OfferStore(db, pick.value)].hasStripeAccount)
            && (outcome == Done
                <==> pick.Some? && db.stores[OfferStore(db, pick.value)].hasStripeAccount && transferOk)
            && outcome in {Done, NoEscrow, NoStripeAccount, TransferFailed}
            && (outcome != Done ==> after == db)
            && (outcome == Done ==>
                  var e, k := pick.value, OfferStore(db, pick.value);
                  && PaidOut(db, after, e, k)
                  && OnlyPayment(db, after, e, PaymentOf(db, e).(escrowStatus := RELEASED))
                  && after.rows == db.rows + [VendorRow(k, ESCROW_PAYMENT(e), db.escrows[e].merchant,
                                                        after.stores[k].balance)])
  {
    if pick.Some? {
      assert OfferStore(db, pick.value) < |db.stores|;
      RealizePays(db, pick.value, OfferStore(db, pick.value));
    }
  }

  /** A freeze goes through exactly if a row was found and its order has a store; that store's pending share freezes. */
  lemma FreezeWrites(db: Ledger, pick: Option<nat>)
    requires WellFormed(db)
    requires pick.Some? ==> pick.value < |db.escrows| && db.escrows[pick.value].status == HELD
    ensures var (after, outcome) := Freeze(db, pick);
            && (outcome == NoEscrow <==> pick.None?)
            && (outcome == Done <==> pick.Some? && OrderStore(db, pick.value).Some?)
            && outcome in {Done, NoEscrow, StoreMissing}
            && (outcome != Done ==> after == db)
            && (outcome == Done ==>
                  var e, k := pick.value, OrderStore(db, pick.value).value;
                  var share := db.escrows[e].merchant;
                  && OnlyBecomes(db, after, e, FROZEN) && OnlyStore(db, after, k, -share, share, 0)
                  && after.platform == db.platform && after.payments == db.payments && after.orders == db.orders
                  && after.rows == db.rows)
  {
    if pick.Some? { assert OrderStore(db, pick.value) == db.orders[db.escrows[pick.value].order].store; }
  }

  /** What a refund needs: a row, a Stripe payment, Stripe's consent and an order with a store. */
  ghost predicate CanRefund(db: Ledger, pick: Option<nat>, stripeOk: bool)
    requires WellFormed(db) && (pick.Some? ==> pick.value < |db.escrows|)
  {
    pick.Some? && PaymentOf(db, pick.value).hasStripeId && stripeOk && OrderStore(db, pick.value).Some?
  }

  function IfElse(c: bool, amount: int): int {
    if c then amount else 0
  }

  /** A refund takes the share out of the balance it was in, whichever that is, and marks the payment. */
  lemma RefundWrites(db: Ledger, pick: Option<nat>, amount: real, stripeOk: bool)
    requires WellFormed(db)
    requires pick.Some? ==> pick.value < |db.escrows| && db.escrows[pick.value].status in {HELD, FROZEN}
    ensures var (after, outcome) := Refund(db, pick, amount, stripeOk);
            && (outcome == Done <==> CanRefund(db, pick, stripeOk))
            && (outcome == NoEscrow <==> pick.None?)
            && (outcome != Done ==> after == db)
            && (outcome == Done ==>
                  var e, k := pick.value, OrderStore(db, pick.value).value;
                  var row := db.escrows[e];
                  && OnlyBecomes(db, after, e, EscrowStatus.REFUNDED)
                  && OnlyStore(db, after, k, -IfElse(row.status == HELD, row.merchant),
                               -IfElse(row.status == FROZEN, row.merchant), 0)
                  && OnlyPayment(db, after, e, Payment(PaymentOf(db, e).store, true, PAYMENT_REFUNDED,
                                                       EscrowStatus.REFUNDED, amount))
                  && after.platform == db.platform && after.orders == db.orders && after.rows == db.rows)
  {
    if pick.Some? { assert OrderStore(db, pick.value) == db.orders[db.escrows[pick.value].order].store; }
  }

  // ---- Verdicts -------------------------------------------------------------------------------------

  /**
   * A verdict that releases or denies writes something exactly if it has a form, a held row and a case store: it pays
   * the row out to that store, with no row of its own and no mark on the payment. Without the store it fails.
   */
  lemma ReleasingVerdictIff(db: Ledger, kind: VerdictKind, caseStore: Option<nat>, price: int, extra: Option<Extra>,
                            pick: Option<nat>, stripeOk: bool)
    requires WellFormed(db) && (caseStore.Some? ==> caseStore.value < |db.stores|) && kind != VerdictKind.REFUND
    requires pick.Some? ==> pick.value < |db.escrows| && db.escrows[pick.value].status == HELD
    ensures var (after, outcome) := Verdict(db, kind, caseStore, price, extra, pick, stripeOk);
            && (after != db <==> extra.Some? && pick.Some? && caseStore.Some?)
            && (outcome == StoreMissing <==> extra.Some? && pick.Some? && caseStore.None?)
            && outcome in {Done, StoreMissing}
            && (after != db ==>
                  && PaidOut(db, after, pick.value, caseStore.value)
                  && after.payments == db.payments && after.rows == db.rows)
  {
    if extra.Some? && pick.Some? && caseStore.Some? {
      RealizePays(db, pick.value, caseStore.value);
      assert Realize(db, pick.value, caseStore.value).escrows[pick.value].status == RELEASED;
    }
  }

  /** What a refund verdict charges the merchant: the round trip under his fault, and the penalty for a fraud. */
  function ShippingCharge(x: Extra): int {
    if x.shippingRoundtrip > 0 && x.fault == MERCHANT_FAULT then x.shippingRoundtrip else 0
  }

  function PenaltyCharge(x: Extra): int {
    if !x.fraud then 0
    else if x.penaltyAmount.Some? && x.penaltyAmount.value != 0 then x.penaltyAmount.value
    else 5_000_000
  }

  /** Only the store pays: shipping out of the balance, the penalty into the frozen money, each under its row. */
  lemma ChargesWrite(db: Ledger, k: nat, x: Extra)
    requires k < |db.stores|
    ensures var after, before := Charges(db, k, x), db.stores[k].balance;
            && OnlyStore(db, after, k, 0, PenaltyCharge(x), -ShippingCharge(x))
            && after.escrows == db.escrows && after.payments == db.payments && after.orders == db.orders
            && after.platform == db.platform
            && after.rows == db.rows + ChargeRows(k, before, x)
  {
  }

  function ChargeRows(k: nat, before: int, x: Extra): seq<VendorRow> {
    (if ShippingCharge(x) == 0 then []
     else [VendorRow(k, SHIPPING_FEE, ShippingCharge(x), before - ShippingCharge(x))])
    + (if !x.fraud then [] else [VendorRow(k, FRAUD_PENALTY, PenaltyCharge(x), before)])
  }

  /** What store i pays back of the refunded row out of the balance of the given status. */
  function PaidBack(db: Ledger, pick: Option<nat>, paid: bool, i: nat, from: EscrowStatus): int
    requires WellFormed(db) && (pick.Some? ==> pick.value < |db.escrows|)
  {
    if paid && pick.Some? && OrderStore(db, pick.value) == Some(i) && db.escrows[pick.value].status == from
    then db.escrows[pick.value].merchant else 0
  }

  ghost predicate StoresAfterRefund(db: Ledger, after: Ledger, caseStore: Option<nat>, x: Extra, pick: Option<nat>,
                                    paid: bool)
    requires WellFormed(db) && (pick.Some? ==> pick.value < |db.escrows|)
  {
    && |after.stores| == |db.stores|
    && forall i :: 0 <= i < |db.stores| ==>
         var charged, s := caseStore == Some(i), db.stores[i];
         after.stores[i] == Store(s.pending - PaidBack(db, pick, paid, i, HELD),
                                  s.frozen + IfElse(charged, PenaltyCharge(x)) - PaidBack(db, pick, paid, i, FROZEN),
                                  s.balance - IfElse(charged, ShippingCharge(x)), s.hasStripeAccount)
  }

  /** The refund itself, if the fees leave anything to refund. */
  ghost predicate RefundedIf(paid: bool, db: Ledger, after: Ledger, pick: Option<nat>, net: real)
    requires WellFormed(db) && (pick.Some? ==> pick.value < |db.escrows|)
  {
    if paid && pick.Some? then
      && OnlyBecomes(db, after, pick.value, EscrowStatus.REFUNDED)
      && OnlyPayment(db, after, pick.value, Payment(PaymentOf(db, pick.value).store, true, PAYMENT_REFUNDED,
                                                    EscrowStatus.REFUNDED, net))
    else after.escrows == db.escrows && after.payments == db.payments
  }

  lemma AfterCharges(db: Ledger, charged: Ledger, after: Ledger, caseStore: Option<nat>, x: Extra, pick: Option<nat>)
    requires WellFormed(db) && WellFormed(charged) && pick.Some? && pick.value < |db.escrows|
    requires caseStore.Some? ==> caseStore.value < |db.stores|
    requires charged == if caseStore.Some? then Charges(db, caseStore.value, x) else db
    requires OrderStore(db, pick.value).Some? && db.escrows[pick.value].status in {HELD, FROZEN}
    requires var row := db.escrows[pick.value];
             OnlyStore(charged, after, OrderStore(db, pick.value).value, -IfElse(row.status == HELD, row.merchant),
                       -IfElse(row.status == FROZEN, row.merchant), 0)
    ensures StoresAfterRefund(db, after, caseStore, x, pick, true)
  {
    if caseStore.Some? { ChargesWrite(db, caseStore.value, x); }
  }

  /**
   * A refund verdict goes through exactly if there is a store for its charges and, when the fees leave something of the
   * price, a refund is possible. Then the case store bears shipping and penalty, the order's store gives the share
   * back, and otherwise nothing changes; without a form nothing happens at all.
   */
  lemma RefundVerdictWrites(db: Ledger, caseStore: Option<nat>, price: int, x: Extra, pick: Option<nat>, stripeOk: bool)
    requires WellFormed(db) && (caseStore.Some? ==> caseStore.value < |db.stores|)
    requires pick.Some? ==> pick.value < |db.escrows| && db.escrows[pick.value].status in {HELD, FROZEN}
    ensures Verdict(db, VerdictKind.REFUND, caseStore, price, None, pick, stripeOk) == (db, Done)
    ensures var (after, outcome) := Verdict(db, VerdictKind.REFUND, caseStore, price, Some(x), pick, stripeOk);
            var net := NetRefund(price, x);
            && (outcome == Done <==> && (caseStore.Some? || (ShippingCharge(x) == 0 && !x.fraud))
                                     && (net <= 0.0 || CanRefund(db, pick, stripeOk)))
            && (outcome != Done ==> after == db)
            && (outcome == Done ==>
                  && RefundedIf(net > 0.0, db, after, pick, net)
                  && StoresAfterRefund(db, after, caseStore, x, pick, net > 0.0)
                  && after.platform == db.platform && after.orders == db.orders
                  && after.rows == db.rows + (if caseStore.None? then []
                                              else ChargeRows(caseStore.value, db.stores[caseStore.value].balance, x)))
  {
    var charged := if caseStore.Some? then Charges(db, caseStore.value, x) else db;
    var net := NetRefund(price, x);
    assert WellFormed(charged);
    if caseStore.Some? { ChargesWrite(db, caseStore.value, x); }
    RefundWrites(charged, pick, net, stripeOk);
    if pick.Some? {
      assert PaymentOf(charged, pick.value) == PaymentOf(db, pick.value);
      assert OrderStore(charged, pick.value) == OrderStore(db, pick.value);
      if net > 0.0 && CanRefund(db, pick, stripeOk) {
        AfterCharges(db, charged, Refund(charged, pick, net, stripeOk).0, caseStore, x, pick);
      }
    }
  }

  /** The percentages a form leaves open are 3 and 1.5, so it keeps 4.5 % of the price; a zero counts as left open. */
  lemma OpenPercentages(price: real, x: Extra)
    requires x.gatewayFeePct in {None, Some(0.0)} && x.refundFeePct in {None, Some(0.0)}
    ensures Fees(price, x) == price * 45.0 / 1000.0
  {
  }

  lemma GivenPercentages(price: real, x: Extra, gateway: real, refund: real)
    requires x.gatewayFeePct == Some(gateway) && gateway != 0.0 && x.refundFeePct == Some(refund) && refund != 0.0
    ensures Fees(price, x) == price * gateway / 100.0 + price * refund / 100.0
  {
  }

  // ---- Fines ----------------------------------------------------------------------------------------

  /** A fine leaves a store's balance under its row and reaches one platform row, as fee, revenue and fine. */
  lemma FineWrites(db: Ledger, store: Option<nat>, wallet: Option<nat>, amount: int)
    requires (store.Some? ==> store.value < |db.stores|) && (wallet.Some? ==> wallet.value < |db.platform|)
    ensures var after := Fine(db, store, wallet, amount);
            && (if store.Some? then
                  && OnlyStore(db, after, store.value, 0, 0, -amount)
                  && after.rows == db.rows + [VendorRow(store.value, VIOLATION_FINE, amount,
                                                        after.stores[store.value].balance)]
                else after.stores == db.stores && after.rows == db.rows)
            && |after.platform| == |db.platform|
            && (forall w :: 0 <= w < |db.platform| ==>
                  var got := IfElse(wallet == Some(w), amount);
                  && after.platform[w].commission == db.platform[w].commission
                  && after.platform[w].fees == db.platform[w].fees + got
                  && after.platform[w].revenue == db.platform[w].revenue + got
                  && after.platform[w].fined == db.platform[w].fined + got)
            && after.escrows == db.escrows && after.payments == db.payments && after.orders == db.orders
  {
  }
}
