/**
 * The escrow ledger: escrow rows, the stores' three balances, the platform wallets and the vendor wallet rows,
 * with every operation that moves them. Amounts are fils; row numbers are identities, since no row is deleted.
 */
module EscrowLedger {
  import opened Lists
  import opened MoneyStates

  datatype Escrow = Escrow(payment: nat, order: nat, merchant: int, commission: int, shipping: int, gatewayFee: int,
                           status: EscrowStatus)
  datatype Payment = Payment(store: nat, hasStripeId: bool, status: PaymentStatus, escrowStatus: EscrowStatus,
                             refunded: real)
  datatype Order = Order(store: Option<nat>)
  datatype Store = Store(pending: int, frozen: int, balance: int, hasStripeAccount: bool)

  /** `fined` is history: how much of the fees came from violation fines. */
  datatype PlatformWallet = PlatformWallet(commission: int, fees: int, revenue: int, fined: int)

  datatype RowKind =
    | ESCROW_PAYMENT(escrow: nat) | SHIPPING_FEE | FRAUD_PENALTY | VIOLATION_FINE | WITHDRAWAL | MANUAL_PAYOUT
  datatype VendorRow = VendorRow(store: nat, kind: RowKind, amount: int, balanceAfter: int)

  datatype Ledger = Ledger(escrows: seq<Escrow>, payments: seq<Payment>, orders: seq<Order>, stores: seq<Store>,
                           platform: seq<PlatformWallet>, rows: seq<VendorRow>)

  datatype Outcome = Done | NoEscrow | NoStripeAccount | TransferFailed | NoStripePayment | RefundFailed | StoreMissing

  /** The foreign keys the schema enforces. */
  ghost predicate WellFormed(db: Ledger) {
    && (forall e :: e in db.escrows ==> e.payment < |db.payments| && e.order < |db.orders|)
    && (forall p :: p in db.payments ==> p.store < |db.stores|)
    && (forall o :: o in db.orders && o.store.Some? ==> o.store.value < |db.stores|)
  }

  /** What an unordered findFirst may return: any matching row, or nothing when there is none. */
  ghost predicate Picks(db: Ledger, order: nat, statuses: set<EscrowStatus>, pick: Option<nat>) {
    match pick
    case Some(e) => e < |db.escrows| && db.escrows[e].order == order && db.escrows[e].status in statuses
    case None => forall e :: e in db.escrows ==> !(e.order == order && e.status in statuses)
  }

  // ---- The single moves ----------------------------------------------------------------------------

  /** Which balance of a store an escrow in a given status is part of; refunded money is in none. */
  function AddToPot(s: Store, status: EscrowStatus, amount: int): Store {
    match status
    case HELD => s.(pending := s.pending + amount)
    case FROZEN => s.(frozen := s.frozen + amount)
    case RELEASED => s.(balance := s.balance + amount)
    case REFUNDED => s
  }

  /** Row e changes status and its merchant share follows, out of one balance of store k and into another. */
  function Shift(db: Ledger, e: nat, to: EscrowStatus, k: nat): Ledger
    requires e < |db.escrows| && k < |db.stores|
  {
    var row := db.escrows[e];
    var store := AddToPot(AddToPot(db.stores[k], row.status, -row.merchant), to, row.merchant);
    db.(escrows := db.escrows[e := row.(status := to)], stores := db.stores[k := store])
  }

  function EarnedBy(e: Escrow): PlatformWallet -> PlatformWallet {
    (w: PlatformWallet) => PlatformWallet(w.commission + e.commission, w.fees + e.gatewayFee,
                                          w.revenue + e.commission + e.gatewayFee, w.fined)
  }

  /** A release by store k: the balances move and every platform wallet row earns commission and fee. */
  function Realize(db: Ledger, e: nat, k: nat): Ledger
    requires e < |db.escrows| && k < |db.stores|
  {
    Shift(db, e, RELEASED, k).(platform := Map(db.platform, EarnedBy(db.escrows[e])))
  }

  function Hold(db: Ledger, payment: nat, order: nat, store: nat, merchant: int, commission: int, shipping: int,
                gatewayFee: int): Ledger
    requires store < |db.stores|
  {
    db.(escrows := db.escrows + [Escrow(payment, order, merchant, commission, shipping, gatewayFee, HELD)],
        stores := db.stores[store := AddToPot(db.stores[store], HELD, merchant)])
  }

  function Release(db: Ledger, pick: Option<nat>, transferOk: bool): (Ledger, Outcome)
    requires WellFormed(db) && (pick.Some? ==> pick.value < |db.escrows|)
  {
    if pick.None? then (db, NoEscrow)
    else
      var e := pick.value;
      var row := db.escrows[e];
      assert row in db.escrows;
      var payment := db.payments[row.payment];
      assert payment in db.payments;
      var k := payment.store;
      if !db.stores[k].hasStripeAccount then (db, NoStripeAccount)
      else if !transferOk then (db, TransferFailed)
      else
        var credit := VendorRow(k, ESCROW_PAYMENT(e), row.merchant, db.stores[k].balance + row.merchant);
        (Realize(db, e, k).(payments := db.payments[row.payment := payment.(escrowStatus := RELEASED)],
                            rows := db.rows + [credit]), Done)
  }

  function Freeze(db: Ledger, pick: Option<nat>): (Ledger, Outcome)
    requires WellFormed(db) && (pick.Some? ==> pick.value < |db.escrows|)
  {
    if pick.None? then (db, NoEscrow)
    else
      var row := db.escrows[pick.value];
      assert row in db.escrows;
      var order := db.orders[row.order];
      assert order in db.orders;
      if order.store.None? then (db, StoreMissing) else (Shift(db, pick.value, FROZEN, order.store.value), Done)
  }

  function Refund(db: Ledger, pick: Option<nat>, amount: real, stripeOk: bool): (Ledger, Outcome)
    requires WellFormed(db) && (pick.Some? ==> pick.value < |db.escrows|)
  {
    if pick.None? then (db, NoEscrow)
    else
      var row := db.escrows[pick.value];
      assert row in db.escrows;
      var order := db.orders[row.order];
      assert order in db.orders;
      var payment := db.payments[row.payment];
      if !payment.hasStripeId then (db, NoStripePayment)
      else if !stripeOk then (db, RefundFailed)
      else if order.store.None? then (db, StoreMissing)
      else
        var refunded := payment.(status := PAYMENT_REFUNDED, escrowStatus := REFUNDED, refunded := amount);
        (Shift(db, pick.value, REFUNDED, order.store.value).(payments := db.payments[row.payment := refunded]), Done)
  }

  // ---- The verdict ---------------------------------------------------------------------------------

  datatype VerdictKind = REFUND | RELEASE_FUNDS | DENY
  datatype Fault = MERCHANT_FAULT | CUSTOMER_FAULT | OTHER_FAULT

  /** The verdict form; absent or zero percentages and penalty fall back to 3 %, 1.5 % and 50 000 AED. */
  datatype Extra = Extra(gatewayFeePct: Option<real>, refundFeePct: Option<real>, shippingRoundtrip: int, fault: Fault,
                         fraud: bool, penaltyAmount: Option<int>)

  const DEFAULT_PENALTY: int := 50_000 * 100

  function Percent(given: Option<real>, default: real): real {
    if given.None? || given.value == 0.0 then default else given.value
  }

  function Penalty(x: Extra): int {
    if x.penaltyAmount.None? || x.penaltyAmount.value == 0 then DEFAULT_PENALTY else x.penaltyAmount.value
  }

  function AtLeastZero(x: real): real {
    if x < 0.0 then 0.0 else x
  }

  function Fees(price: real, x: Extra): real {
    price * Percent(x.gatewayFeePct, 3.0) / 100.0 + price * Percent(x.refundFeePct, 1.5) / 100.0
  }

  function LessShipping(pool: real, x: Extra): real {
    if x.shippingRoundtrip > 0 && x.fault == CUSTOMER_FAULT then AtLeastZero(pool - x.shippingRoundtrip as real)
        else pool
  }

  function NetRefund(price: int, x: Extra): real {
    LessShipping(AtLeastZero(price as real - Fees(price as real, x)), x)
  }

  function CustomerShipping(x: Extra): real {
    if x.shippingRoundtrip > 0 && x.fault == CUSTOMER_FAULT then x.shippingRoundtrip as real else 0.0
  }

  lemma PoolShares(p: real, fees: real, x: Extra)
    requires p >= 0.0 && fees >= 0.0
    ensures var net := LessShipping(AtLeastZero(p - fees), x);
            && 0.0 <= net <= p
            && (net > 0.0 ==> net + fees + CustomerShipping(x) == p)
            && (net == 0.0 <==> p <= fees + CustomerShipping(x))
  {
  }

  lemma FeeShare(p: real, percent: real)
    requires p >= 0.0 && percent >= 0.0
    ensures p * percent / 100.0 >= 0.0
  {
  }

  /** What a refund leaves of the price: fees and the customer's own shipping come off, but never more than there is. */
  lemma NetRefundShares(price: int, x: Extra)
    requires price >= 0 && Percent(x.gatewayFeePct, 3.0) >= 0.0 && Percent(x.refundFeePct, 1.5) >= 0.0
    ensures var net, p, fees := NetRefund(price, x), price as real, Fees(price as real, x);
            && 0.0 <= net <= p
            && (net > 0.0 ==> net + fees + CustomerShipping(x) == p)
            && (net == 0.0 <==> p <= fees + CustomerShipping(x))
  {
    FeeShare(price as real, Percent(x.gatewayFeePct, 3.0));
    FeeShare(price as real, Percent(x.refundFeePct, 1.5));
    PoolShares(price as real, Fees(price as real, x), x);
  }

  function ChargesMerchant(x: Extra): bool {
    x.shippingRoundtrip > 0 && x.fault == MERCHANT_FAULT
  }

  /** Shipping is charged to at most one party: what the merchant pays is not taken from the refund. */
  lemma ShippingChargedOnce(price: int, x: Extra)
    ensures ChargesMerchant(x) ==> NetRefund(price, x) == NetRefund(price, x.(shippingRoundtrip := 0))
    ensures CustomerShipping(x) > 0.0 ==> !ChargesMerchant(x)
  {
  }

  /** The rows of what was taken from a withdrawable balance. */
  predicate TakesBalance(kind: RowKind) {
    kind == SHIPPING_FEE || kind == VIOLATION_FINE || kind == WITHDRAWAL || kind == MANUAL_PAYOUT
  }

  /** Money leaves a store's withdrawable balance, with the row that says so. */
  function TakeFrom(db: Ledger, k: nat, kind: RowKind, amount: int): Ledger
    requires k < |db.stores|
  {
    var s := db.stores[k];
    db.(stores := db.stores[k := s.(balance := s.balance - amount)],
        rows := db.rows + [VendorRow(k, kind, amount, s.balance - amount)])
  }

  /** The balance written into a penalty row is the one read before the transaction began. */
  function Penalize(db: Ledger, k: nat, amount: int, balanceRead: int): Ledger
    requires k < |db.stores|
  {
    var s := db.stores[k];
    db.(stores := db.stores[k := s.(frozen := s.frozen + amount)],
        rows := db.rows + [VendorRow(k, FRAUD_PENALTY, amount, balanceRead)])
  }

  /** Shipping and penalty of a refund verdict, charged to store k. */
  function Charges(db: Ledger, k: nat, x: Extra): (r: Ledger)
    requires k < |db.stores|
    ensures r.escrows == db.escrows && r.payments == db.payments && r.orders == db.orders && |r.stores| == |db.stores|
  {
    var shipped := if ChargesMerchant(x) then TakeFrom(db, k, SHIPPING_FEE, x.shippingRoundtrip) else db;
    if x.fraud then Penalize(shipped, k, Penalty(x), db.stores[k].balance) else shipped
  }

  /** One transaction: any failure leaves the ledger as it was. */
  function Verdict(db: Ledger, kind: VerdictKind, caseStore: Option<nat>, price: int, extra: Option<Extra>,
                   pick: Option<nat>, stripeOk: bool): (Ledger, Outcome)
    requires WellFormed(db) && (pick.Some? ==> pick.value < |db.escrows|)
    requires caseStore.Some? ==> caseStore.value < |db.stores|
  {
    if extra.None? then (db, Done)
    else if kind == REFUND then
      var x := extra.value;
      if (ChargesMerchant(x) || x.fraud) && caseStore.None? then (db, StoreMissing)
      else
        var charged := if caseStore.Some? then Charges(db, caseStore.value, x) else db;
        if NetRefund(price, x) <= 0.0 then (charged, Done)
        else
          assert WellFormed(charged);
          var (refunded, outcome) := Refund(charged, pick, NetRefund(price, x), stripeOk);
          if outcome == Done then (refunded, Done) else (db, outcome)
    else if pick.None? then (db, Done)
    else if caseStore.None? then (db, StoreMissing)
    else (Realize(db, pick.value, caseStore.value), Done)
  }

  // ---- Violation fines -----------------------------------------------------------------------------

  /**
   * A fine leaves the fined merchant's balance and goes to the platform wallet row `wallet`, if there is one. A
   * customer's fine comes from a balance outside this ledger.
   */
  function Fine(db: Ledger, store: Option<nat>, wallet: Option<nat>, amount: int): Ledger
    requires (store.Some? ==> store.value < |db.stores|) && (wallet.Some? ==> wallet.value < |db.platform|)
  {
    var charged := if store.None? then db else TakeFrom(db, store.value, VIOLATION_FINE, amount);
    if wallet.None? then charged
    else
      var w := db.platform[wallet.value];
      charged.(platform := db.platform[wallet.value :=
                 PlatformWallet(w.commission, w.fees + amount, w.revenue + amount, w.fined + amount)])
  }

  // ---- Runs ----------------------------------------------------------------------------------------

  datatype Action =
    | HoldFunds(payment: nat, order: nat, store: nat, merchant: int, commission: int, shipping: int, gatewayFee: int)
    | ReleaseFunds(order: nat, pick: Option<nat>, transferOk: bool)
    | FreezeFunds(order: nat, pick: Option<nat>)
    | ProcessRefund(order: nat, pick: Option<nat>, amount: real, stripeOk: bool)
    | IssueVerdict(order: nat, verdictKind: VerdictKind, caseStore: Option<nat>, price: int, extra: Option<Extra>,
                   pick: Option<nat>, stripeOk: bool)
    | FineIssued(finedStore: Option<nat>, wallet: Option<nat>, fine: int)
    | PaidFromBalance(shop: nat, kind: RowKind, paid: int)

  function PickedFrom(kind: VerdictKind): set<EscrowStatus> {
    if kind == REFUND then {HELD, FROZEN} else {HELD}
  }

  ghost predicate Enabled(db: Ledger, a: Action) {
    match a
    case HoldFunds(p, o, k, _, _, _, _) => p < |db.payments| && o < |db.orders| && k == db.payments[p].store
    case ReleaseFunds(o, pick, _) => Picks(db, o, {HELD}, pick)
    case FreezeFunds(o, pick) => Picks(db, o, {HELD}, pick)
    case ProcessRefund(o, pick, _, _) => Picks(db, o, {HELD, FROZEN}, pick)
    case IssueVerdict(o, kind, k, _, _, pick, _) =>
      Picks(db, o, PickedFrom(kind), pick) && o < |db.orders| && (k.Some? ==> k.value < |db.stores|)
    case FineIssued(k, w, amount) =>
      amount > 0 && (k.Some? ==> k.value < |db.stores|)
          && (if w.Some? then w.value < |db.platform| else db.platform == [])
    case PaidFromBalance(k, kind, _) => k < |db.stores| && TakesBalance(kind) && kind != VIOLATION_FINE
  }

  function Step(db: Ledger, a: Action): Ledger
    requires WellFormed(db) && Enabled(db, a)
  {
    match a
    case HoldFunds(p, o, k, m, c, s, g) => assert db.payments[p] in db.payments; Hold(db, p, o, k, m, c, s, g)
    case ReleaseFunds(_, pick, ok) => Release(db, pick, ok).0
    case FreezeFunds(_, pick) => Freeze(db, pick).0
    case ProcessRefund(_, pick, amount, ok) => Refund(db, pick, amount, ok).0
    case IssueVerdict(_, kind, k, price, x, pick, ok) => Verdict(db, kind, k, price, x, pick, ok).0
    case FineIssued(k, w, amount) => Fine(db, k, w, amount)
    case PaidFromBalance(k, kind, amount) => TakeFrom(db, k, kind, amount)
  }

  /** A run: the ledger after each action, every findFirst answered by some matching row. */
  ghost predicate IsRun(states: seq<Ledger>, actions: seq<Action>) {
    && |states| == |actions| + 1
    && forall i :: 0 <= i < |actions| ==> Follows(states[i], actions[i], states[i + 1])
  }

  ghost predicate Follows(before: Ledger, a: Action, after: Ledger) {
    WellFormed(before) && Enabled(before, a) && after == Step(before, a)
  }

  lemma RealizeWellFormed(db: Ledger, e: nat, k: nat)
    requires WellFormed(db) && e < |db.escrows| && k < |db.stores|
    ensures WellFormed(Realize(db, e, k))
  {
  }

  /** A release that goes through is a move by the offer's store with one payout row. */
  lemma ReleaseShape(db: Ledger, pick: Option<nat>, transferOk: bool) returns (k: nat, credit: VendorRow)
    requires WellFormed(db) && (pick.Some? ==> pick.value < |db.escrows|)
    requires Release(db, pick, transferOk).1 == Done
    ensures pick.Some? && k < |db.stores| && credit.kind == ESCROW_PAYMENT(pick.value)
    ensures var after, realized := Release(db, pick, transferOk).0, Realize(db, pick.value, k);
            && after.escrows == realized.escrows && after.stores == realized.stores
               && after.platform == realized.platform
            && after.rows == db.rows + [credit]
  {
    var row := db.escrows[pick.value];
    assert row in db.escrows && db.payments[row.payment] in db.payments;
    k := db.payments[row.payment].store;
    credit := VendorRow(k, ESCROW_PAYMENT(pick.value), row.merchant, db.stores[k].balance + row.merchant);
  }

  lemma ReleaseWellFormed(db: Ledger, pick: Option<nat>, transferOk: bool)
    requires WellFormed(db) && (pick.Some? ==> pick.value < |db.escrows|)
    ensures WellFormed(Release(db, pick, transferOk).0)
  {
  }

  lemma RefundWellFormed(db: Ledger, pick: Option<nat>, amount: real, stripeOk: bool)
    requires WellFormed(db) && (pick.Some? ==> pick.value < |db.escrows|)
    ensures WellFormed(Refund(db, pick, amount, stripeOk).0)
  {
  }

  lemma VerdictWellFormed(db: Ledger, kind: VerdictKind, k: Option<nat>, price: int, x: Option<Extra>,
                          pick: Option<nat>, ok: bool)
    requires WellFormed(db) && (pick.Some? ==> pick.value < |db.escrows|) && (k.Some? ==> k.value < |db.stores|)
    ensures WellFormed(Verdict(db, kind, k, price, x, pick, ok).0)
  {
    if pick.Some? && k.Some? { RealizeWellFormed(db, pick.value, k.value); }
    if x.Some? {
      var charged := if k.Some? then Charges(db, k.value, x.value) else db;
      assert WellFormed(charged);
      RefundWellFormed(charged, pick, NetRefund(price, x.value), ok);
    }
  }

  /** Every action keeps the foreign keys, so a run never gets stuck on them. */
  lemma StepWellFormed(db: Ledger, a: Action)
    requires WellFormed(db) && Enabled(db, a)
    ensures WellFormed(Step(db, a))
  {
    match a
    case HoldFunds(_, _, _, _, _, _, _) =>
    case ReleaseFunds(_, pick, ok) => ReleaseWellFormed(db, pick, ok);
    case FreezeFunds(_, _) =>
    case ProcessRefund(_, pick, amount, ok) => RefundWellFormed(db, pick, amount, ok);
    case IssueVerdict(_, kind, k, price, x, pick, ok) =>
      VerdictWellFormed(db, kind, k, price, x, pick, ok);
    case FineIssued(_, _, _) =>
    case PaidFromBalance(_, _, _) =>
  }
}
