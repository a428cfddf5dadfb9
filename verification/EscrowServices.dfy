/**
 * The services that update the ledger's rows in place. A transaction works on its own copy of the tables and
 * commits it as the last step; an exception before that leaves the database untouched.
 */
module EscrowServices {
  import opened Lists
  import opened EscrowLedger
  import opened EscrowMoves
  import opened MoneyStates

  class Database {
    var tables: Ledger

    constructor (tables: Ledger)
      ensures this.tables == tables
    {
      this.tables := tables;
    }

    /** findFirst without an order: any matching row will do. */
    method FindEscrow(order: nat, statuses: set<EscrowStatus>) returns (pick: Option<nat>)
      ensures Picks(tables, order, statuses, pick)
    {
      var candidates := set e | 0 <= e < |tables.escrows| && tables.escrows[e].order == order
          && tables.escrows[e].status in statuses;
      if candidates == {} {
        forall row | row in tables.escrows ensures !(row.order == order && row.status in statuses) {
          var e :| 0 <= e < |tables.escrows| && tables.escrows[e] == row;
          assert e !in candidates;
        }
        pick := None;
      } else {
        var e :| e in candidates;
        pick := Some(e);
      }
    }
  }

  class EscrowService {
    const db: Database

    constructor (db: Database)
      ensures this.db == db
    {
      this.db := db;
    }

    method HoldFunds(payment: nat, order: nat, store: nat, merchant: int, commission: int, shipping: int,
                     gatewayFee: int)
      requires store < |db.tables.stores|
      modifies db
      ensures db.tables == Hold(old(db.tables), payment, order, store, merchant, commission, shipping, gatewayFee)
      ensures db.tables.escrows
              == old(db.tables.escrows) + [Escrow(payment, order, merchant, commission, shipping, gatewayFee, HELD)]
      ensures OnlyStore(old(db.tables), db.tables, store, merchant, 0, 0)
    {
      var tx := db.tables;
      tx := tx.(escrows := tx.escrows + [Escrow(payment, order, merchant, commission, shipping, gatewayFee, HELD)]);
      var s := tx.stores[store];
      tx := tx.(stores := tx.stores[store := s.(pending := s.pending + merchant)]);
      db.tables := tx;
    }

    method ReleaseFunds(order: nat, transferOk: nat -> bool) returns (outcome: Outcome, pick: Option<nat>)
      requires WellFormed(db.tables)
      modifies db
      ensures Picks(old(db.tables), order, {HELD}, pick)
      ensures (db.tables, outcome) == Release(old(db.tables), pick, pick.Some? && transferOk(pick.value))
    {
      var tx := db.tables;
      pick := db.FindEscrow(order, {HELD});
      if pick.None? { return NoEscrow, pick; }
      var e := pick.value;
      var escrow := tx.escrows[e];
      assert escrow in tx.escrows;
      var payment := tx.payments[escrow.payment];
      assert payment in tx.payments;
      var k := payment.store;
      if !tx.stores[k].hasStripeAccount { return NoStripeAccount, pick; }
      if !transferOk(e) { return TransferFailed, pick; }
      tx := tx.(escrows := tx.escrows[e := escrow.(status := RELEASED)]);
      var s := tx.stores[k];
      tx := tx.(stores := tx.stores[k :=
                                    s.(pending := s.pending - escrow.merchant,
                                       balance := s.balance + escrow.merchant)]);
      tx := tx.(platform := Map(tx.platform, EarnedBy(escrow)));
      tx := tx.(payments := tx.payments[escrow.payment := payment.(escrowStatus := RELEASED)]);
      tx := tx.(rows := tx.rows + [VendorRow(k, ESCROW_PAYMENT(e), escrow.merchant, tx.stores[k].balance)]);
      db.tables := tx;
      outcome := Done;
    }

    method FreezeFunds(order: nat) returns (outcome: Outcome, pick: Option<nat>)
      requires WellFormed(db.tables)
      modifies db
      ensures Picks(old(db.tables), order, {HELD}, pick)
      ensures (db.tables, outcome) == Freeze(old(db.tables), pick)
    {
      var tx := db.tables;
      pick := db.FindEscrow(order, {HELD});
      if pick.None? { return NoEscrow, pick; }
      var escrow := tx.escrows[pick.value];
      assert escrow in tx.escrows;
      tx := tx.(escrows := tx.escrows[pick.value := escrow.(status := FROZEN)]);
      assert tx.orders[escrow.order] in tx.orders;
      if tx.orders[escrow.order].store.None? { return StoreMissing, pick; }
      var k := tx.orders[escrow.order].store.value;
      var s := tx.stores[k];
      tx := tx.(stores := tx.stores[k :=
                                    s.(pending := s.pending - escrow.merchant, frozen := s.frozen + escrow.merchant)]);
      db.tables := tx;
      outcome := Done;
    }

    method ProcessRefund(order: nat, amount: real, stripeOk: bool) returns (outcome: Outcome, pick: Option<nat>)
      requires WellFormed(db.tables)
      modifies db
      ensures Picks(old(db.tables), order, {HELD, FROZEN}, pick)
      ensures (db.tables, outcome) == Refund(old(db.tables), pick, amount, stripeOk)
    {
      var tx := db.tables;
      pick := db.FindEscrow(order, {HELD, FROZEN});
      if pick.None? { return NoEscrow, pick; }
      var escrow := tx.escrows[pick.value];
      assert escrow in tx.escrows;
      var payment := tx.payments[escrow.payment];
      if !payment.hasStripeId { return NoStripePayment, pick; }
      if !stripeOk { return RefundFailed, pick; }
      tx := tx.(escrows := tx.escrows[pick.value := escrow.(status := EscrowStatus.REFUNDED)]);
      tx := tx.(payments := tx.payments[escrow.payment :=
        payment.(escrowStatus := EscrowStatus.REFUNDED, status := PAYMENT_REFUNDED, refunded := amount)]);
      assert tx.orders[escrow.order] in tx.orders;
      if tx.orders[escrow.order].store.None? { return StoreMissing, pick; }
      var k := tx.orders[escrow.order].store.value;
      var s := tx.stores[k];
      if escrow.status == HELD {
        s := s.(pending := s.pending - escrow.merchant);
      } else if escrow.status == FROZEN {
        s := s.(frozen := s.frozen - escrow.merchant);
      }
      tx := tx.(stores := tx.stores[k := s]);
      db.tables := tx;
      outcome := Done;
    }
  }

  class ReturnsService {
    const db: Database
    const escrowService: EscrowService

    constructor (db: Database, escrowService: EscrowService)
      requires escrowService.db == db
      ensures this.db == db && this.escrowService == escrowService
    {
      this.db := db;
      this.escrowService := escrowService;
    }

    /** Shipping charge and fraud penalty of a refund verdict, written into the open transaction. */
    method ChargeMerchant(k: nat, x: Extra)
      requires k < |db.tables.stores|
      modifies db
      ensures db.tables == Charges(old(db.tables), k, x)
    {
      var tx := db.tables;
      var balanceRead := tx.stores[k].balance;
      if x.shippingRoundtrip > 0 && x.fault == MERCHANT_FAULT {
        var s := tx.stores[k];
        tx := tx.(stores := tx.stores[k := s.(balance := s.balance - x.shippingRoundtrip)]);
        tx := tx.(rows := tx.rows
                  + [VendorRow(k, SHIPPING_FEE, x.shippingRoundtrip, balanceRead - x.shippingRoundtrip)]);
      }
      if x.fraud {
        var s := tx.stores[k];
        tx := tx.(stores := tx.stores[k := s.(frozen := s.frozen + Penalty(x))]);
        tx := tx.(rows := tx.rows + [VendorRow(k, FRAUD_PENALTY, Penalty(x), balanceRead)]);
      }
      db.tables := tx;
    }

    /**
     * Whether it releases or denies, a verdict with a form pays the held row out to the case store, nothing else does,
     * and only a missing store stops it; a refund verdict is the transaction `Verdict`.
     */
    method IssueVerdict(order: nat, kind: VerdictKind, caseStore: Option<nat>, price: int, extra: Option<Extra>,
                        stripeOk: bool)
      returns (outcome: Outcome, pick: Option<nat>)
      requires escrowService.db == db && WellFormed(db.tables)
      requires caseStore.Some? ==> caseStore.value < |db.tables.stores|
      modifies db
      ensures Picks(old(db.tables), order, PickedFrom(kind), pick)
      ensures (db.tables, outcome) == Verdict(old(db.tables), kind, caseStore, price, extra, pick, stripeOk)
      ensures kind != VerdictKind.REFUND ==>
                && (outcome == Done <==> extra.None? || pick.None? || caseStore.Some?)
                && (outcome != Done ==> outcome == StoreMissing)
                && if extra.Some? && pick.Some? && caseStore.Some? then
                     && PaidOut(old(db.tables), db.tables, pick.value, caseStore.value)
                     && db.tables.payments == old(db.tables.payments) && db.tables.rows == old(db.tables.rows)
                   else db.tables == old(db.tables)
    {
      var before := db.tables;
      pick := db.FindEscrow(order, PickedFrom(kind));
      if kind != VerdictKind.REFUND { ReleasingVerdictIff(before, kind, caseStore, price, extra, pick, stripeOk); }
      outcome := Done;
      if extra.None? { return; }
      var x := extra.value;
      if kind == VerdictKind.REFUND {
        if (x.fraud || (x.shippingRoundtrip > 0 && x.fault == MERCHANT_FAULT))
            && caseStore.None? { return StoreMissing, pick; }
        if caseStore.Some? {
          ChargeMerchant(caseStore.value, x);
          assert WellFormed(db.tables);
        }
        if NetRefund(price, x) > 0.0 {
          outcome, pick := escrowService.ProcessRefund(order, NetRefund(price, x), stripeOk);
          if outcome != Done { db.tables := before; }
        }
      } else if pick.Some? {
        if caseStore.None? { return StoreMissing, pick; }
        var tx := db.tables;
        var escrow := tx.escrows[pick.value];
        tx := tx.(escrows := tx.escrows[pick.value := escrow.(status := RELEASED)]);
        var s := tx.stores[caseStore.value];
        tx := tx.(stores := tx.stores[caseStore.value :=
          s.(pending := s.pending - escrow.merchant, balance := s.balance + escrow.merchant)]);
        tx := tx.(platform := Map(tx.platform, EarnedBy(escrow)));
        db.tables := tx;
      }
    }
  }

  class ViolationsService {
    const db: Database

    constructor (db: Database)
      ensures this.db == db
    {
      this.db := db;
    }

    /**
     * The fine of a violation: the merchant's store if it is found, then the first platform wallet row if there is
     * one.
     */
    method DeductFine(store: Option<nat>, amount: int) returns (wallet: Option<nat>)
      requires store.Some? ==> store.value < |db.tables.stores|
      modifies db
      ensures wallet.Some? ==> wallet.value < |old(db.tables).platform|
      ensures wallet.None? ==> amount <= 0 || old(db.tables).platform == []
      ensures db.tables == if amount > 0 then Fine(old(db.tables), store, wallet, amount) else old(db.tables)
    {
      wallet := None;
      if amount <= 0 { return; }
      var tx := db.tables;
      if store.Some? {
        var newBalance := tx.stores[store.value].balance - amount;
        tx := tx.(stores := tx.stores[store.value := tx.stores[store.value].(balance := newBalance)]);
        tx := tx.(rows := tx.rows + [VendorRow(store.value, VIOLATION_FINE, amount, newBalance)]);
      }
      if tx.platform != [] {
        var i :| 0 <= i < |tx.platform|;
        wallet := Some(i);
        var w := tx.platform[i];
        tx := tx.(platform :=
                  tx.platform[i := w.(fees := w.fees + amount, revenue := w.revenue + amount,
                                      fined := w.fined + amount)]);
      }
      db.tables := tx;
    }
  }
}
