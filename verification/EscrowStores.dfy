/**
 * The same conservation store by store. An order may name a store, and then it has to be the one its payments are for;
 * the program itself never writes one. A verdict that releases has to be on a case of the escrow's own store.
 */
module EscrowStores {
  import opened Lists
  import opened EscrowLedger
  import opened MoneyStates
  import opened EscrowInvariants
  import opened EscrowHistory

  function StoreOf(): Payment -> nat {
    (p: Payment) => p.store
  }

  /** The share of store k: the offers' stores decide whose escrow it is. */
  function ShareAt(offerStores: seq<nat>, status: EscrowStatus, k: nat): Escrow -> int {
    (e: Escrow) =>
      if e.status == status && e.payment < |offerStores| && offerStores[e.payment] == k then e.merchant else 0
  }

  function OfKindAt(kind: RowKind, k: nat): VendorRow -> int {
    (r: VendorRow) => if r.kind == kind && r.store == k then r.amount else 0
  }

  function DebitedAt(k: nat): VendorRow -> int {
    (r: VendorRow) => if r.store == k && TakesBalance(r.kind) then r.amount else 0
  }

  datatype LocalGaps = LocalGaps(pending: int, frozen: int, balance: int)

  function GapAt(db: Ledger, status: EscrowStatus, k: nat): int
    requires k < |db.stores|
  {
    Pot(status)(db.stores[k]) - Sum(db.escrows, ShareAt(Map(db.payments, StoreOf()), status, k))
  }

  function LocalGapsOf(db: Ledger, k: nat): LocalGaps
    requires k < |db.stores|
  {
    LocalGaps(GapAt(db, HELD, k),
              GapAt(db, FROZEN, k) - Sum(db.rows, OfKindAt(FRAUD_PENALTY, k)),
              GapAt(db, RELEASED, k) + Sum(db.rows, DebitedAt(k)))
  }

  /** An order that names a store names the one its escrows' offers belong to. */
  ghost predicate Agreed(db: Ledger) {
    forall e :: e in db.escrows && e.payment < |db.payments| && e.order < |db.orders|
      ==> db.orders[e.order].store in {None, Some(db.payments[e.payment].store)}
  }

  /** The store a row's offer belongs to. */
  predicate IsStoreOf(db: Ledger, e: nat, k: nat) {
    e < |db.escrows| && db.escrows[e].payment < |db.payments| && db.payments[db.escrows[e].payment].store == k
  }

  /** Only two actions can mix stores: a hold on an order naming another one, and a verdict that releases. */
  ghost predicate ActionAgrees(db: Ledger, a: Action) {
    match a
    case HoldFunds(_, o, k, _, _, _, _) => o < |db.orders| && db.orders[o].store in {None, Some(k)}
    case IssueVerdict(_, kind, caseStore, _, _, pick, _) =>
      kind != VerdictKind.REFUND && pick.Some? && caseStore.Some? ==> IsStoreOf(db, pick.value, caseStore.value)
    case _ => true
  }

  function Moved(row: Escrow, to: EscrowStatus, status: EscrowStatus): int {
    (if to == status then row.merchant else 0) - (if row.status == status then row.merchant else 0)
  }

  /** A move through store k shifts store k's gap one way and the gap of the escrow's own store the other way. */
  lemma ShiftDrift(db: Ledger, e: nat, to: EscrowStatus, k: nat, status: EscrowStatus, s: nat)
    requires e < |db.escrows| && k < |db.stores| && s < |db.stores| && status != REFUNDED
    requires db.escrows[e].payment < |db.payments|
    ensures GapAt(Shift(db, e, to, k), status, s) == GapAt(db, status, s)
            + (if s == k then Moved(db.escrows[e], to, status) else 0)
            - (if s == db.payments[db.escrows[e].payment].store then Moved(db.escrows[e], to, status) else 0)
  {
    SumUpdate(db.escrows, e, db.escrows[e].(status := to), ShareAt(Map(db.payments, StoreOf()), status, s));
  }

  lemma ShiftKeepsLocalGaps(db: Ledger, e: nat, to: EscrowStatus, k: nat, s: nat)
    requires e < |db.escrows| && k < |db.stores| && s < |db.stores|
    requires db.escrows[e].payment < |db.payments| && db.payments[db.escrows[e].payment].store == k
    ensures LocalGapsOf(Shift(db, e, to, k), s) == LocalGapsOf(db, s)
  {
    ShiftDrift(db, e, to, k, HELD, s);
    ShiftDrift(db, e, to, k, FROZEN, s);
    ShiftDrift(db, e, to, k, RELEASED, s);
  }

  lemma HoldKeepsLocalGaps(db: Ledger, p: nat, o: nat, k: nat, m: int, c: int, h: int, g: int, s: nat)
    requires k < |db.stores| && s < |db.stores| && p < |db.payments| && db.payments[p].store == k
    ensures LocalGapsOf(Hold(db, p, o, k, m, c, h, g), s) == LocalGapsOf(db, s)
  {
    var row := Escrow(p, o, m, c, h, g, HELD);
    forall status: EscrowStatus ensures Sum(db.escrows + [row], ShareAt(Map(db.payments, StoreOf()), status, s))
        == Sum(db.escrows, ShareAt(Map(db.payments, StoreOf()), status, s))
            + if status == HELD && k == s then m else 0 {
      SumAppend(db.escrows, row, ShareAt(Map(db.payments, StoreOf()), status, s));
    }
  }

  lemma TakeKeepsLocalGaps(db: Ledger, k: nat, kind: RowKind, amount: int, s: nat)
    requires k < |db.stores| && s < |db.stores| && TakesBalance(kind)
    ensures LocalGapsOf(TakeFrom(db, k, kind, amount), s) == LocalGapsOf(db, s)
  {
    var r := VendorRow(k, kind, amount, db.stores[k].balance - amount);
    SumAppend(db.rows, r, DebitedAt(s));
    SumAppend(db.rows, r, OfKindAt(FRAUD_PENALTY, s));
  }

  lemma FineKeepsLocalGaps(db: Ledger, store: Option<nat>, wallet: Option<nat>, amount: int, s: nat)
    requires (store.Some? ==> store.value < |db.stores|) && (wallet.Some? ==> wallet.value < |db.platform|)
             && s < |db.stores|
    ensures LocalGapsOf(Fine(db, store, wallet, amount), s) == LocalGapsOf(db, s)
  {
    if store.Some? { TakeKeepsLocalGaps(db, store.value, VIOLATION_FINE, amount, s); }
    var charged, after := Fine(db, store, None, amount), Fine(db, store, wallet, amount);
    assert after.escrows == charged.escrows && after.stores == charged.stores && after.rows == charged.rows;
    assert after.payments == charged.payments;
  }

  lemma ChargesKeepLocalGaps(db: Ledger, k: nat, x: Extra, s: nat)
    requires k < |db.stores| && s < |db.stores|
    ensures LocalGapsOf(Charges(db, k, x), s) == LocalGapsOf(db, s)
  {
    var shipped := if ChargesMerchant(x) then TakeFrom(db, k, SHIPPING_FEE, x.shippingRoundtrip) else db;
    if ChargesMerchant(x) {
      SumAppend(db.rows, shipped.rows[|db.rows|], DebitedAt(s));
      SumAppend(db.rows, shipped.rows[|db.rows|], OfKindAt(FRAUD_PENALTY, s));
    }
    if x.fraud {
      var row := Charges(db, k, x).rows[|shipped.rows|];
      SumAppend(shipped.rows, row, DebitedAt(s));
      SumAppend(shipped.rows, row, OfKindAt(FRAUD_PENALTY, s));
    }
  }

  /** Neither a payment's new status nor an escrow payment row matters to the gaps. */
  lemma Neutral(before: Ledger, after: Ledger, s: nat)
    requires after.escrows == before.escrows && after.stores == before.stores && s < |before.stores|
    requires Map(after.payments, StoreOf()) == Map(before.payments, StoreOf())
    requires after.rows == before.rows
             || exists r: VendorRow :: r.kind.ESCROW_PAYMENT? && after.rows == before.rows + [r]
    ensures LocalGapsOf(after, s) == LocalGapsOf(before, s)
  {
    if after.rows != before.rows {
      var r: VendorRow :| r.kind.ESCROW_PAYMENT? && after.rows == before.rows + [r];
      SumAppend(before.rows, r, DebitedAt(s));
      SumAppend(before.rows, r, OfKindAt(FRAUD_PENALTY, s));
    }
  }

  lemma ReleaseKeepsLocalGaps(db: Ledger, pick: Option<nat>, transferOk: bool, s: nat)
    requires WellFormed(db) && s < |db.stores| && (pick.Some? ==> pick.value < |db.escrows|)
    ensures LocalGapsOf(Release(db, pick, transferOk).0, s) == LocalGapsOf(db, s)
  {
    if Release(db, pick, transferOk).1 == Done {
      var row := db.escrows[pick.value];
      assert row in db.escrows && db.payments[row.payment] in db.payments;
      var k := db.payments[row.payment].store;
      ShiftKeepsLocalGaps(db, pick.value, RELEASED, k, s);
      var r := VendorRow(k, ESCROW_PAYMENT(pick.value), row.merchant, db.stores[k].balance + row.merchant);
      assert Release(db, pick, transferOk).0.rows == db.rows + [r];
      Neutral(Shift(db, pick.value, RELEASED, k), Release(db, pick, transferOk).0, s);
    }
  }

  lemma RefundKeepsLocalGaps(db: Ledger, pick: Option<nat>, amount: real, stripeOk: bool, s: nat)
    requires WellFormed(db) && Agreed(db) && s < |db.stores| && (pick.Some? ==> pick.value < |db.escrows|)
    ensures LocalGapsOf(Refund(db, pick, amount, stripeOk).0, s) == LocalGapsOf(db, s)
  {
    if Refund(db, pick, amount, stripeOk).1 == Done {
      var row := db.escrows[pick.value];
      assert row in db.escrows && db.orders[row.order] in db.orders;
      var k := db.orders[row.order].store.value;
      ShiftKeepsLocalGaps(db, pick.value, REFUNDED, k, s);
      Neutral(Shift(db, pick.value, REFUNDED, k), Refund(db, pick, amount, stripeOk).0, s);
    }
  }

  lemma FreezeKeepsLocalGaps(db: Ledger, pick: Option<nat>, s: nat)
    requires WellFormed(db) && Agreed(db) && s < |db.stores| && (pick.Some? ==> pick.value < |db.escrows|)
    ensures LocalGapsOf(Freeze(db, pick).0, s) == LocalGapsOf(db, s)
  {
    if Freeze(db, pick).1 == Done {
      var row := db.escrows[pick.value];
      assert row in db.escrows && db.orders[row.order] in db.orders;
      ShiftKeepsLocalGaps(db, pick.value, FROZEN, db.orders[row.order].store.value, s);
    }
  }

  lemma ChargesAgree(db: Ledger, k: nat, x: Extra)
    requires WellFormed(db) && Agreed(db) && k < |db.stores|
    ensures WellFormed(Charges(db, k, x)) && Agreed(Charges(db, k, x))
  {
  }

  lemma RefundVerdictIs(db: Ledger, k: Option<nat>, price: int, x: Extra, pick: Option<nat>, ok: bool)
    requires WellFormed(db) && (k.Some? ==> k.value < |db.stores|) && (pick.Some? ==> pick.value < |db.escrows|)
    requires WellFormed(if k.Some? then Charges(db, k.value, x) else db)
    ensures var charged := if k.Some? then Charges(db, k.value, x) else db;
            var after := Verdict(db, VerdictKind.REFUND, k, price, Some(x), pick, ok).0;
            after == db || after == charged || after == Refund(charged, pick, NetRefund(price, x), ok).0
  {
  }

  lemma ChargedRefundKeepsLocalGaps(db: Ledger, k: Option<nat>, price: int, x: Extra, pick: Option<nat>, ok: bool,
                                    s: nat)
    requires WellFormed(db) && Agreed(db) && s < |db.stores| && (k.Some? ==> k.value < |db.stores|)
    requires pick.Some? ==> pick.value < |db.escrows|
    ensures LocalGapsOf(Verdict(db, VerdictKind.REFUND, k, price, Some(x), pick, ok).0, s) == LocalGapsOf(db, s)
  {
    if k.Some? {
      ChargesKeepLocalGaps(db, k.value, x, s);
      ChargesAgree(db, k.value, x);
    }
    var charged := if k.Some? then Charges(db, k.value, x) else db;
    RefundKeepsLocalGaps(charged, pick, NetRefund(price, x), ok, s);
    RefundVerdictIs(db, k, price, x, pick, ok);
  }

  lemma VerdictKeepsLocalGaps(db: Ledger, kind: VerdictKind, k: Option<nat>, price: int, x: Option<Extra>,
                              pick: Option<nat>, ok: bool, s: nat)
    requires WellFormed(db) && Agreed(db) && s < |db.stores| && (k.Some? ==> k.value < |db.stores|)
    requires pick.Some? ==> pick.value < |db.escrows|
    requires kind != VerdictKind.REFUND && pick.Some? && k.Some? ==> IsStoreOf(db, pick.value, k.value)
    ensures LocalGapsOf(Verdict(db, kind, k, price, x, pick, ok).0, s) == LocalGapsOf(db, s)
  {
    if x.Some? && kind == VerdictKind.REFUND {
      ChargedRefundKeepsLocalGaps(db, k, price, x.value, pick, ok, s);
    } else if x.Some? && pick.Some? && k.Some? {
      assert db.escrows[pick.value] in db.escrows;
      ShiftKeepsLocalGaps(db, pick.value, RELEASED, k.value, s);
    }
  }

  lemma StepConservesAt(db: Ledger, a: Action, s: nat)
    requires WellFormed(db) && Agreed(db) && s < |db.stores| && Enabled(db, a) && ActionAgrees(db, a)
    ensures |Step(db, a).stores| == |db.stores| && LocalGapsOf(Step(db, a), s) == LocalGapsOf(db, s)
  {
    StepEvolves(db, a);
    match a
    case HoldFunds(p, o, k, m, c, h, g) =>
      assert db.payments[p] in db.payments;
      HoldKeepsLocalGaps(db, p, o, k, m, c, h, g, s);
    case ReleaseFunds(_, pick, ok) => ReleaseKeepsLocalGaps(db, pick, ok, s);
    case FreezeFunds(_, pick) => FreezeKeepsLocalGaps(db, pick, s);
    case ProcessRefund(_, pick, amount, ok) => RefundKeepsLocalGaps(db, pick, amount, ok, s);
    case IssueVerdict(_, kind, k, price, x, pick, ok) => VerdictKeepsLocalGaps(db, kind, k, price, x, pick, ok, s);
    case FineIssued(k, w, amount) => FineKeepsLocalGaps(db, k, w, amount, s);
    case PaidFromBalance(k, kind, amount) => TakeKeepsLocalGaps(db, k, kind, amount, s);
  }

  /** The agreement is on references no action rewrites. */
  lemma StepAgreed(db: Ledger, a: Action)
    requires WellFormed(db) && Agreed(db) && Enabled(db, a) && ActionAgrees(db, a)
    ensures Agreed(Step(db, a))
  {
    var after := Step(db, a);
    StepEvolves(db, a);
    forall e | e in after.escrows && e.payment < |after.payments| && e.order < |after.orders|
      ensures after.orders[e.order].store in {None, Some(after.payments[e.payment].store)}
    {
      var i :| 0 <= i < |after.escrows| && after.escrows[i] == e;
      if i < |db.escrows| { assert db.escrows[i] in db.escrows; }
    }
  }

  /** Run in which no action mixes stores: every store's own pots stay tied to its own escrows. */
  lemma {:induction false} RunConservesAt(states: seq<Ledger>, actions: seq<Action>, s: nat)
    requires IsRun(states, actions) && Agreed(states[0]) && s < |states[0].stores|
    requires forall i :: 0 <= i < |actions| ==> ActionAgrees(states[i], actions[i])
    ensures var db := states[|actions|];
            Agreed(db) && |db.stores| == |states[0].stores| && LocalGapsOf(db, s) == LocalGapsOf(states[0], s)
  {
    if actions != [] {
      var n := |actions| - 1;
      RunConservesAt(states[..n + 1], actions[..n], s);
      assert Follows(states[n], actions[n], states[n + 1]);
      StepAgreed(states[n], actions[n]);
      StepConservesAt(states[n], actions[n], s);
    }
  }

  /**
   * From an opening ledger, in such a run: each store's three balances are exactly the sums of its own escrows and
   * rows.
   */
  lemma StoreBalanced(states: seq<Ledger>, actions: seq<Action>, s: nat)
    requires IsRun(states, actions) && Opening(states[0]) && s < |states[0].stores|
    requires forall i :: 0 <= i < |actions| ==> ActionAgrees(states[i], actions[i])
    ensures var db := states[|actions|];
            var offerStores := Map(db.payments, StoreOf());
            && s < |db.stores|
            && db.stores[s].pending == Sum(db.escrows, ShareAt(offerStores, HELD, s))
            && db.stores[s].frozen == Sum(db.escrows, ShareAt(offerStores, FROZEN, s))
               + Sum(db.rows, OfKindAt(FRAUD_PENALTY, s))
            && db.stores[s].balance == Sum(db.escrows, ShareAt(offerStores, RELEASED, s)) - Sum(db.rows, DebitedAt(s))
  {
    RunConservesAt(states, actions, s);
    assert states[0].stores[s] in states[0].stores;
    assert LocalGapsOf(states[0], s) == LocalGaps(0, 0, 0);
  }

  /**
   * Exactly when a freeze, refund or release keeps the books of every store: it goes through the escrow's own
   * store, or there is nothing to move.
   */
  lemma ShiftIsLocalIff(db: Ledger, e: nat, to: EscrowStatus, k: nat)
    requires WellFormed(db) && e < |db.escrows| && k < |db.stores| && db.escrows[e].status in {HELD, FROZEN}
             && to != db.escrows[e].status
    ensures (forall s :: 0 <= s < |db.stores| ==> LocalGapsOf(Shift(db, e, to, k), s) == LocalGapsOf(db, s))
            <==> db.escrows[e].merchant == 0 || db.payments[db.escrows[e].payment].store == k
  {
    var row := db.escrows[e];
    assert row in db.escrows && db.payments[row.payment] in db.payments;
    if row.merchant == 0 {
      forall s | 0 <= s < |db.stores| ensures LocalGapsOf(Shift(db, e, to, k), s) == LocalGapsOf(db, s) {
        ShiftDrift(db, e, to, k, HELD, s);
        ShiftDrift(db, e, to, k, FROZEN, s);
        ShiftDrift(db, e, to, k, RELEASED, s);
      }
    } else if db.payments[row.payment].store == k {
      forall s | 0 <= s < |db.stores| ensures LocalGapsOf(Shift(db, e, to, k), s) == LocalGapsOf(db, s) {
        ShiftKeepsLocalGaps(db, e, to, k, s);
      }
    } else {
      ShiftDrift(db, e, to, k, row.status, k);
      assert LocalGapsOf(Shift(db, e, to, k), k) != LocalGapsOf(db, k);
    }
  }

  // ---- Orders as the program leaves them ---------------------------------------------------------------

  /** No order names a store: the column is nullable and nothing writes it. */
  ghost predicate Storeless(db: Ledger) {
    forall o :: o in db.orders ==> o.store.None?
  }

  /** A freeze or a refund of such an order never goes through; a refund has been paid by Stripe when it fails. */
  lemma StorelessNeverRefunds(db: Ledger, pick: Option<nat>, amount: real, stripeOk: bool)
    requires WellFormed(db) && Storeless(db) && (pick.Some? ==> pick.value < |db.escrows|)
    ensures Freeze(db, pick) == (db, if pick.None? then NoEscrow else StoreMissing)
    ensures Refund(db, pick, amount, stripeOk).0 == db && Refund(db, pick, amount, stripeOk).1 != Done
    ensures Refund(db, pick, amount, stripeOk).1 == StoreMissing
            <==> pick.Some? && db.payments[db.escrows[pick.value].payment].hasStripeId && stripeOk
  {
    if pick.Some? {
      assert db.escrows[pick.value] in db.escrows;
      assert db.orders[db.escrows[pick.value].order] in db.orders;
    }
  }

  ghost predicate HeldOrReleased(db: Ledger) {
    forall e :: e in db.escrows ==> e.status in {HELD, RELEASED}
  }

  lemma StorelessStep(db: Ledger, a: Action)
    requires WellFormed(db) && Storeless(db) && HeldOrReleased(db) && Enabled(db, a)
    ensures Storeless(Step(db, a)) && HeldOrReleased(Step(db, a))
  {
    StepEvolves(db, a);
    match a
    case HoldFunds(_, _, _, _, _, _, _) =>
    case ReleaseFunds(_, _, _) =>
    case FreezeFunds(_, pick) => StorelessNeverRefunds(db, pick, 0.0, true);
    case ProcessRefund(_, pick, amount, ok) => StorelessNeverRefunds(db, pick, amount, ok);
    case IssueVerdict(_, kind, k, price, x, pick, ok) => StorelessVerdict(db, kind, k, price, x, pick, ok);
    case FineIssued(_, _, _) =>
    case PaidFromBalance(_, _, _) =>
  }

  lemma StorelessVerdict(db: Ledger, kind: VerdictKind, k: Option<nat>, price: int, x: Option<Extra>, pick: Option<nat>,
                         ok: bool)
    requires WellFormed(db) && Storeless(db) && HeldOrReleased(db) && (k.Some? ==> k.value < |db.stores|)
    requires pick.Some? ==> pick.value < |db.escrows| && db.escrows[pick.value].status in PickedFrom(kind)
    ensures HeldOrReleased(Verdict(db, kind, k, price, x, pick, ok).0)
  {
    if x.Some? && kind == VerdictKind.REFUND {
      var charged := if k.Some? then Charges(db, k.value, x.value) else db;
      assert WellFormed(charged);
      StorelessNeverRefunds(charged, pick, NetRefund(price, x.value), ok);
      RefundVerdictIs(db, k, price, x.value, pick, ok);
    }
  }

  /** Over any run with such orders no escrow is ever frozen or refunded: an escrow is held until it is released. */
  lemma {:induction false} StorelessRun(states: seq<Ledger>, actions: seq<Action>)
    requires IsRun(states, actions) && Opening(states[0]) && Storeless(states[0])
    ensures Storeless(states[|actions|]) && HeldOrReleased(states[|actions|])
  {
    if actions != [] {
      var n := |actions| - 1;
      StorelessRun(states[..n + 1], actions[..n]);
      assert Follows(states[n], actions[n], states[n + 1]);
      StorelessStep(states[n], actions[n]);
    }
  }

  /**
   * The order row has no price, so a refund verdict computes with 0: whatever the fees, it refunds nothing and never
   * asks for an escrow; it only charges the merchant.
   */
  lemma NoPriceNoRefund(db: Ledger, k: Option<nat>, x: Extra, pick: Option<nat>, stripeOk: bool)
    requires WellFormed(db) && (pick.Some? ==> pick.value < |db.escrows|) && (k.Some? ==> k.value < |db.stores|)
    ensures NetRefund(0, x) == 0.0
    ensures Verdict(db, VerdictKind.REFUND, k, 0, Some(x), pick, stripeOk)
            == if k.Some? then (Charges(db, k.value, x), Done)
               else (db, if ChargesMerchant(x) || x.fraud then StoreMissing else Done)
  {
    assert 0 as real == 0.0;
    assert Fees(0.0, x) == 0.0;
  }

  // ---- A verdict on another store's case ----------------------------------------------------------------

  /** Two stores, one payment for the first, one order without a store. */
  function TwoStores(): Ledger {
    Ledger([], [Payment(0, true, SUCCESS, HELD, 0.0)], [Order(None)], [Store(0, 0, 0, true), Store(0, 0, 0, true)], [],
           [])
  }

  /** 100 are held for store 0, */
  function HeldForFirst(): Ledger {
    TwoStores().(escrows := [Escrow(0, 0, 100, 0, 0, 0, HELD)],
                 stores := [Store(100, 0, 0, true), Store(0, 0, 0, true)])
  }

  /** and paid out to store 1. */
  function PaidToSecond(): Ledger {
    TwoStores().(escrows := [Escrow(0, 0, 100, 0, 0, 0, RELEASED)],
                 stores := [Store(100, 0, 0, true), Store(-100, 0, 100, true)])
  }

  lemma HoldForFirst()
    ensures Follows(TwoStores(), HoldFunds(0, 0, 0, 100, 0, 0, 0), HeldForFirst())
  {
    assert Hold(TwoStores(), 0, 0, 0, 100, 0, 0, 0).stores == HeldForFirst().stores;
  }

  lemma DenyForSecond(x: Extra)
    ensures Follows(HeldForFirst(), IssueVerdict(0, DENY, Some(1), 0, Some(x), Some(0), true), PaidToSecond())
  {
    var held := HeldForFirst();
    assert Realize(held, 0, 1).stores == PaidToSecond().stores && Realize(held, 0, 1).escrows == PaidToSecond().escrows;
    assert Map(held.platform, EarnedBy(held.escrows[0])) == [];
    assert Realize(held, 0, 1) == PaidToSecond();
  }

  /**
   * From an opening ledger: 100 are held for store 0, then a case of store 1 about the same order is denied. Store 0
   * keeps a pending balance without an escrow; store 1 is paid, out of a pending balance it never had.
   */
  lemma MixedStoresDrift(x: Extra) returns (states: seq<Ledger>, actions: seq<Action>)
    ensures IsRun(states, actions) && Opening(states[0]) && Storeless(states[0]) && |actions| == 2
    ensures actions[1] == IssueVerdict(0, DENY, Some(1), 0, Some(x), Some(0), true)
    ensures states[2].escrows == [Escrow(0, 0, 100, 0, 0, 0, RELEASED)]
    ensures states[2].stores == [Store(100, 0, 0, true), Store(-100, 0, 100, true)]
  {
    HoldForFirst();
    DenyForSecond(x);
    states := [TwoStores(), HeldForFirst(), PaidToSecond()];
    actions := [HoldFunds(0, 0, 0, 100, 0, 0, 0), IssueVerdict(0, DENY, Some(1), 0, Some(x), Some(0), true)];
  }
}
