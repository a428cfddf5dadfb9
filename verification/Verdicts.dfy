/**
 * A verdict as a whole: the money it moves, the case it closes, the order it writes past the transition table, the
 * store it suspends and the return label it issues, in one transaction.
 */
module Verdicts {
  import opened Lists
  import opened OrderStates
  import EscrowLedger
  import EscrowMoves
  import EscrowServices

  datatype CaseStatus = OPEN | CASE_APPROVED | CASE_REFUNDED | CASE_RESOLVED
  datatype Case = Case(order: nat, store: Option<nat>, isReturn: bool, status: CaseStatus, locked: bool)

  /** A refunded return waits for the goods; a refunded dispute is over at once. */
  function CaseAfter(kind: EscrowLedger.VerdictKind, isReturn: bool): CaseStatus {
    if kind != EscrowLedger.REFUND then CASE_RESOLVED else if isReturn then CASE_APPROVED else CASE_REFUNDED
  }

  function OrderAfter(kind: EscrowLedger.VerdictKind, isReturn: bool): OrderStatus {
    if kind != EscrowLedger.REFUND then COMPLETED else if isReturn then RETURN_APPROVED else REFUNDED
  }

  /** Where the transition table would have allowed the write. */
  lemma VerdictLegalIff(kind: EscrowLedger.VerdictKind, isReturn: bool, from: OrderStatus)
    ensures OrderAfter(kind, isReturn) in Allowed(from)
            <==> || (kind != EscrowLedger.REFUND && from in {DELIVERED, WARRANTY_EXPIRED, RETURNED, DISPUTED, RESOLVED})
                 || (kind == EscrowLedger.REFUND && isReturn && from == RETURN_REQUESTED)
                 || (kind == EscrowLedger.REFUND && !isReturn && from == DISPUTED)
  {
  }

  predicate Suspends(kind: EscrowLedger.VerdictKind, extra: Option<EscrowLedger.Extra>) {
    kind == EscrowLedger.REFUND && extra.Some? && extra.value.fraud
  }

  predicate IssuesLabel(kind: EscrowLedger.VerdictKind, c: Case) {
    kind == EscrowLedger.REFUND && c.isReturn
  }

  /** The store whose fraud the verdict punishes. */
  function SuspendedBy(kind: EscrowLedger.VerdictKind, extra: Option<EscrowLedger.Extra>, c: Case): set<nat> {
    if Suspends(kind, extra) && c.store.Some? then {c.store.value} else {}
  }

  function Judged(c: Case, kind: EscrowLedger.VerdictKind): Case {
    c.(status := CaseAfter(kind, c.isReturn), locked := true)
  }

  function Money(db: EscrowLedger.Ledger, c: Case, kind: EscrowLedger.VerdictKind, price: int,
                 extra: Option<EscrowLedger.Extra>, pick: Option<nat>, stripeOk: bool)
    : (EscrowLedger.Ledger, EscrowLedger.Outcome)
    requires EscrowLedger.WellFormed(db) && (pick.Some? ==> pick.value < |db.escrows|)
    requires c.store.Some? ==> c.store.value < |db.stores|
  {
    EscrowLedger.Verdict(db, kind, c.store, price, extra, pick, stripeOk)
  }

  /** The transaction commits: the money moves, and a return label finds a store to go to. */
  predicate Decided(db: EscrowLedger.Ledger, c: Case, kind: EscrowLedger.VerdictKind, price: int,
                    extra: Option<EscrowLedger.Extra>, acceptedStore: Option<nat>, pick: Option<nat>, stripeOk: bool)
    requires EscrowLedger.WellFormed(db) && (pick.Some? ==> pick.value < |db.escrows|)
    requires c.store.Some? ==> c.store.value < |db.stores|
  {
    && Money(db, c, kind, price, extra, pick, stripeOk).1 == EscrowLedger.Done
    && (IssuesLabel(kind, c) ==> acceptedStore.Some? || c.store.Some?)
  }

  class ReturnsService {
    const db: EscrowServices.Database
    const money: EscrowServices.ReturnsService
    var cases: seq<Case>
    var orders: seq<OrderStatus>
    var suspended: set<nat>

    constructor (db: EscrowServices.Database, money: EscrowServices.ReturnsService, cases: seq<Case>,
                 orders: seq<OrderStatus>)
      requires money.db == db
      ensures this.db == db && this.money == money && this.cases == cases && this.orders == orders && suspended == {}
    {
      this.db, this.money, this.cases, this.orders, this.suspended := db, money, cases, orders, {};
    }

    ghost predicate Linked()
      reads this, db
    {
      && money.db == db && money.escrowService.db == db && EscrowLedger.WellFormed(db.tables)
      && forall c :: c in cases ==> c.order < |orders| && (c.store.Some? ==> c.store.value < |db.tables.stores|)
    }

    /**
     * `acceptedStore` is the store of the order's accepted offer, which a label looks at before the case's own. The
     * lock a verdict leaves on its case is not looked at: any case can be judged again.
     */
    method IssueVerdict(id: nat, kind: EscrowLedger.VerdictKind, price: int, extra: Option<EscrowLedger.Extra>,
                        acceptedStore: Option<nat>, stripeOk: bool)
      returns (done: bool, labelled: bool, pick: Option<nat>)
      requires Linked()
      modifies this, db
      ensures id < |old(cases)| ==>
                && EscrowLedger.Picks(old(db.tables), old(cases)[id].order, EscrowLedger.PickedFrom(kind), pick)
                && (done <==> Decided(old(db.tables), old(cases)[id], kind, price, extra, acceptedStore, pick,
                                      stripeOk))
      ensures done ==>
                && id < |old(cases)|
                && Money(old(db.tables), old(cases)[id], kind, price, extra, pick, stripeOk).0 == db.tables
                && cases == old(cases)[id := Judged(old(cases)[id], kind)]
                && orders == old(orders)[old(cases)[id].order := OrderAfter(kind, old(cases)[id].isReturn)]
                && suspended == old(suspended) + SuspendedBy(kind, extra, old(cases)[id])
                && labelled == IssuesLabel(kind, old(cases)[id])
      ensures id < |old(cases)| && kind != EscrowLedger.REFUND ==>
                (done <==> extra.None? || pick.None? || old(cases)[id].store.Some?)
      ensures done && kind != EscrowLedger.REFUND ==>
                var c := old(cases)[id];
                && cases[id].status == CASE_RESOLVED && cases[id].locked && orders[c.order] == COMPLETED
                && suspended == old(suspended) && !labelled
                && if extra.Some? && pick.Some? && c.store.Some? then
                     && EscrowMoves.PaidOut(old(db.tables), db.tables, pick.value, c.store.value)
                     && db.tables.payments == old(db.tables.payments) && db.tables.rows == old(db.tables.rows)
                   else db.tables == old(db.tables)
      ensures done && kind == EscrowLedger.REFUND && old(cases)[id].isReturn ==>
                acceptedStore.Some? || old(cases)[id].store.Some?
      ensures id < |old(cases)| && kind == EscrowLedger.REFUND && extra.None? ==>
                (done <==> !old(cases)[id].isReturn || acceptedStore.Some? || old(cases)[id].store.Some?)
      ensures done && kind == EscrowLedger.REFUND ==>
                var c := old(cases)[id];
                && cases[id].locked && labelled == c.isReturn
                && (c.isReturn ==> cases[id].status == CASE_APPROVED && orders[c.order] == RETURN_APPROVED)
                && (!c.isReturn ==> cases[id].status == CASE_REFUNDED && orders[c.order] == REFUNDED)
                && (extra.Some? && extra.value.fraud ==> c.store.Some? && suspended == old(suspended) + {c.store.value})
                && (extra.None? || !extra.value.fraud ==> suspended == old(suspended))
      ensures !done ==> db.tables == old(db.tables) && cases == old(cases) && orders == old(orders)
      ensures !done ==> suspended == old(suspended) && !labelled
    {
      done, labelled, pick := false, false, None;
      if id >= |cases| { return; }
      var c := cases[id];
      assert c in cases;
      var before := db.tables;
      var outcome;
      outcome, pick := money.IssueVerdict(c.order, kind, c.store, price, extra, stripeOk);
      if outcome != EscrowLedger.Done {
        db.tables := before;
        return;
      }
      if kind == EscrowLedger.REFUND && c.isReturn {
        if acceptedStore.None? && c.store.None? {
          db.tables := before;
          return;
        }
        labelled := true;
      }
      if kind == EscrowLedger.REFUND && extra.Some? && extra.value.fraud { suspended := suspended + {c.store.value}; }
      cases := cases[id := c.(status := CaseAfter(kind, c.isReturn), locked := true)];
      orders := orders[c.order := OrderAfter(kind, c.isReturn)];
      done := true;
    }
  }
}
