/** What every run of the escrow ledger keeps: conservation of each balance, the legal status edges, single payment. */
module EscrowInvariants {
  import opened Lists
  import opened EscrowLedger
  import opened MoneyStates

  // ---- Sums over the tables ------------------------------------------------------------------------

  function Pot(status: EscrowStatus): Store -> int {
    (s: Store) =>
      match status case HELD => s.pending case FROZEN => s.frozen case RELEASED => s.balance case REFUNDED => 0
  }

  function Share(status: EscrowStatus): Escrow -> int {
    (e: Escrow) => if e.status == status then e.merchant else 0
  }

  function OfKind(kind: RowKind): VendorRow -> int {
    (r: VendorRow) => if r.kind == kind then r.amount else 0
  }

  /** What a vendor row took from the withdrawable balance. */
  function Debited(): VendorRow -> int {
    (r: VendorRow) => if TakesBalance(r.kind) then r.amount else 0
  }

  function EarnedCommission(): Escrow -> int {
    (e: Escrow) => if e.status == RELEASED then e.commission else 0
  }

  function EarnedFee(): Escrow -> int {
    (e: Escrow) => if e.status == RELEASED then e.gatewayFee else 0
  }

  /** A platform wallet row less what the released escrows and the fines brought in. */
  function Unearned(escrows: seq<Escrow>): PlatformWallet -> PlatformWallet {
    var c, f := Sum(escrows, EarnedCommission()), Sum(escrows, EarnedFee());
    (w: PlatformWallet) => PlatformWallet(w.commission - c, w.fees - f - w.fined, w.revenue - c - f - w.fined, 0)
  }

  /** How far each balance is from what the escrow rows and the vendor rows account for. */
  datatype Gaps = Gaps(pending: int, frozen: int, balance: int, platform: seq<PlatformWallet>)

  function Gap(db: Ledger, status: EscrowStatus): int {
    Sum(db.stores, Pot(status)) - Sum(db.escrows, Share(status))
  }

  function GapsOf(db: Ledger): Gaps {
    Gaps(Gap(db, HELD),
         Gap(db, FROZEN) - Sum(db.rows, OfKind(FRAUD_PENALTY)),
         Gap(db, RELEASED) + Sum(db.rows, Debited()),
         Map(db.platform, Unearned(db.escrows)))
  }

  // ---- One move at a time --------------------------------------------------------------------------

  lemma ShiftKeepsGap(db: Ledger, e: nat, to: EscrowStatus, k: nat, status: EscrowStatus)
    requires e < |db.escrows| && k < |db.stores| && status != REFUNDED
    ensures Gap(Shift(db, e, to, k), status) == Gap(db, status)
  {
    var row := db.escrows[e];
    SumUpdate(db.escrows, e, row.(status := to), Share(status));
    SumUpdate(db.stores, k, Shift(db, e, to, k).stores[k], Pot(status));
  }

  lemma ShiftEarnings(db: Ledger, e: nat, to: EscrowStatus, k: nat)
    requires e < |db.escrows| && k < |db.stores| && db.escrows[e].status != RELEASED
    ensures Sum(Shift(db, e, to, k).escrows, EarnedCommission())
            == Sum(db.escrows, EarnedCommission()) + if to == RELEASED then db.escrows[e].commission else 0
    ensures Sum(Shift(db, e, to, k).escrows, EarnedFee())
            == Sum(db.escrows, EarnedFee()) + if to == RELEASED then db.escrows[e].gatewayFee else 0
  {
    SumUpdate(db.escrows, e, db.escrows[e].(status := to), EarnedCommission());
    SumUpdate(db.escrows, e, db.escrows[e].(status := to), EarnedFee());
  }

  lemma ShiftKeepsGaps(db: Ledger, e: nat, to: EscrowStatus, k: nat)
    requires e < |db.escrows| && k < |db.stores| && db.escrows[e].status != RELEASED && to != RELEASED
    ensures GapsOf(Shift(db, e, to, k)) == GapsOf(db)
  {
    ShiftKeepsGap(db, e, to, k, HELD);
    ShiftKeepsGap(db, e, to, k, FROZEN);
    ShiftKeepsGap(db, e, to, k, RELEASED);
    ShiftEarnings(db, e, to, k);
    assert Map(db.platform, Unearned(Shift(db, e, to, k).escrows)) == Map(db.platform, Unearned(db.escrows));
  }

  lemma RealizeKeepsGaps(db: Ledger, e: nat, k: nat)
    requires e < |db.escrows| && k < |db.stores| && db.escrows[e].status != RELEASED
    ensures GapsOf(Realize(db, e, k)) == GapsOf(db)
  {
    ShiftKeepsGap(db, e, RELEASED, k, HELD);
    ShiftKeepsGap(db, e, RELEASED, k, FROZEN);
    ShiftKeepsGap(db, e, RELEASED, k, RELEASED);
    ShiftEarnings(db, e, RELEASED, k);
    assert Map(Realize(db, e, k).platform, Unearned(Realize(db, e, k).escrows))
           == Map(db.platform, Unearned(db.escrows));
  }

  lemma HoldKeepsGaps(db: Ledger, p: nat, o: nat, k: nat, m: int, c: int, s: int, g: int)
    requires k < |db.stores|
    ensures GapsOf(Hold(db, p, o, k, m, c, s, g)) == GapsOf(db)
  {
    var row := Escrow(p, o, m, c, s, g, HELD);
    var after := Hold(db, p, o, k, m, c, s, g);
    forall status | status in {HELD, FROZEN, RELEASED} ensures Gap(after, status) == Gap(db, status) {
      SumAppend(db.escrows, row, Share(status));
      SumUpdate(db.stores, k, after.stores[k], Pot(status));
    }
    SumAppend(db.escrows, row, EarnedCommission());
    SumAppend(db.escrows, row, EarnedFee());
    assert Map(after.platform, Unearned(after.escrows)) == Map(db.platform, Unearned(db.escrows));
  }

  lemma RowAdded(rows: seq<VendorRow>, r: VendorRow)
    ensures Sum(rows + [r], Debited()) == Sum(rows, Debited()) + Debited()(r)
    ensures Sum(rows + [r], OfKind(FRAUD_PENALTY)) == Sum(rows, OfKind(FRAUD_PENALTY)) + OfKind(FRAUD_PENALTY)(r)
  {
    SumAppend(rows, r, Debited());
    SumAppend(rows, r, OfKind(FRAUD_PENALTY));
  }

  /** Appending a row and changing a store by the matching amount is neutral as well. */
  lemma TakeKeepsGaps(db: Ledger, k: nat, kind: RowKind, amount: int)
    requires k < |db.stores| && TakesBalance(kind)
    ensures GapsOf(TakeFrom(db, k, kind, amount)) == GapsOf(db)
  {
    var after := TakeFrom(db, k, kind, amount);
    forall status | status in {HELD, FROZEN, RELEASED} ensures
        Gap(after, status) == Gap(db, status) - if status == RELEASED then amount else 0 {
      SumUpdate(db.stores, k, after.stores[k], Pot(status));
    }
    RowAdded(db.rows, after.rows[|db.rows|]);
  }

  lemma PenalizeKeepsGaps(db: Ledger, k: nat, amount: int, balanceRead: int)
    requires k < |db.stores|
    ensures GapsOf(Penalize(db, k, amount, balanceRead)) == GapsOf(db)
  {
    var after := Penalize(db, k, amount, balanceRead);
    forall status | status in {HELD, FROZEN, RELEASED} ensures
        Gap(after, status) == Gap(db, status) + if status == FROZEN then amount else 0 {
      SumUpdate(db.stores, k, after.stores[k], Pot(status));
    }
    RowAdded(db.rows, after.rows[|db.rows|]);
  }

  lemma FineKeepsGaps(db: Ledger, store: Option<nat>, wallet: Option<nat>, amount: int)
    requires (store.Some? ==> store.value < |db.stores|) && (wallet.Some? ==> wallet.value < |db.platform|)
    ensures GapsOf(Fine(db, store, wallet, amount)) == GapsOf(db)
  {
    if store.Some? { TakeKeepsGaps(db, store.value, VIOLATION_FINE, amount); }
    var charged, after := Fine(db, store, None, amount), Fine(db, store, wallet, amount);
    assert Map(after.platform, Unearned(after.escrows)) == Map(charged.platform, Unearned(charged.escrows));
  }

  lemma ChargesKeepGaps(db: Ledger, k: nat, x: Extra)
    requires k < |db.stores|
    ensures GapsOf(Charges(db, k, x)) == GapsOf(db)
  {
    var shipped := if ChargesMerchant(x) then TakeFrom(db, k, SHIPPING_FEE, x.shippingRoundtrip) else db;
    if ChargesMerchant(x) { TakeKeepsGaps(db, k, SHIPPING_FEE, x.shippingRoundtrip); }
    if x.fraud { PenalizeKeepsGaps(shipped, k, Penalty(x), db.stores[k].balance); }
  }

  // ---- One action, then a whole run ----------------------------------------------------------------

  lemma PayoutRowNeutral(before: Ledger, after: Ledger, credit: VendorRow)
    requires after.escrows == before.escrows && after.stores == before.stores && after.platform == before.platform
    requires after.rows == before.rows + [credit] && credit.kind.ESCROW_PAYMENT?
    ensures GapsOf(after) == GapsOf(before)
  {
    RowAdded(before.rows, credit);
  }

  lemma ReleaseKeepsGaps(db: Ledger, pick: Option<nat>, transferOk: bool)
    requires WellFormed(db) && (pick.Some? ==> pick.value < |db.escrows| && db.escrows[pick.value].status == HELD)
    ensures GapsOf(Release(db, pick, transferOk).0) == GapsOf(db)
  {
    if Release(db, pick, transferOk).1 == Done {
      var k, credit := ReleaseShape(db, pick, transferOk);
      RealizeKeepsGaps(db, pick.value, k);
      PayoutRowNeutral(Realize(db, pick.value, k), Release(db, pick, transferOk).0, credit);
    }
  }

  lemma RefundKeepsGaps(db: Ledger, pick: Option<nat>, amount: real, stripeOk: bool)
    requires WellFormed(db)
             && (pick.Some? ==> pick.value < |db.escrows| && db.escrows[pick.value].status in {HELD, FROZEN})
    ensures GapsOf(Refund(db, pick, amount, stripeOk).0) == GapsOf(db)
  {
    if Refund(db, pick, amount, stripeOk).1 == Done {
      var row := db.escrows[pick.value];
      assert row in db.escrows && db.orders[row.order] in db.orders;
      ShiftKeepsGaps(db, pick.value, REFUNDED, db.orders[row.order].store.value);
    }
  }

  lemma FreezeKeepsGaps(db: Ledger, pick: Option<nat>)
    requires WellFormed(db) && (pick.Some? ==> pick.value < |db.escrows| && db.escrows[pick.value].status == HELD)
    ensures GapsOf(Freeze(db, pick).0) == GapsOf(db)
  {
    if Freeze(db, pick).1 == Done {
      var row := db.escrows[pick.value];
      assert row in db.escrows && db.orders[row.order] in db.orders;
      ShiftKeepsGaps(db, pick.value, FROZEN, db.orders[row.order].store.value);
    }
  }

  lemma VerdictKeepsGaps(db: Ledger, kind: VerdictKind, k: Option<nat>, price: int, x: Option<Extra>,
                         pick: Option<nat>, ok: bool)
    requires WellFormed(db) && (k.Some? ==> k.value < |db.stores|)
    requires pick.Some? ==> pick.value < |db.escrows| && db.escrows[pick.value].status in PickedFrom(kind)
    ensures GapsOf(Verdict(db, kind, k, price, x, pick, ok).0) == GapsOf(db)
  {
    if x.Some? && kind == VerdictKind.REFUND {
      if k.Some? { ChargesKeepGaps(db, k.value, x.value); }
      var charged := if k.Some? then Charges(db, k.value, x.value) else db;
      RefundKeepsGaps(charged, pick, NetRefund(price, x.value), ok);
    } else if x.Some? && pick.Some? && k.Some? {
      RealizeKeepsGaps(db, pick.value, k.value);
    }
  }

  /**
   * Hold, release, freeze, refund, verdict, fine and payout each leave every gap as it was, whatever stores the rows
   * name.
   */
  lemma StepConserves(db: Ledger, a: Action)
    requires WellFormed(db) && Enabled(db, a)
    ensures GapsOf(Step(db, a)) == GapsOf(db)
  {
    match a
    case HoldFunds(p, o, k, m, c, s, g) => assert db.payments[p] in db.payments; HoldKeepsGaps(db, p, o, k, m, c, s, g);
    case ReleaseFunds(_, pick, ok) => ReleaseKeepsGaps(db, pick, ok);
    case FreezeFunds(_, pick) => FreezeKeepsGaps(db, pick);
    case ProcessRefund(_, pick, amount, ok) => RefundKeepsGaps(db, pick, amount, ok);
    case IssueVerdict(_, kind, k, price, x, pick, ok) => VerdictKeepsGaps(db, kind, k, price, x, pick, ok);
    case FineIssued(k, w, amount) => FineKeepsGaps(db, k, w, amount);
    case PaidFromBalance(k, kind, amount) => TakeKeepsGaps(db, k, kind, amount);
  }

  lemma {:induction false} RunConserves(states: seq<Ledger>, actions: seq<Action>)
    requires IsRun(states, actions)
    ensures GapsOf(states[|actions|]) == GapsOf(states[0])
  {
    if actions != [] {
      var n := |actions| - 1;
      RunConserves(states[..n + 1], actions[..n]);
      assert Follows(states[n], actions[n], states[n + 1]);
      StepConserves(states[n], actions[n]);
    }
  }

  ghost predicate Opening(db: Ledger) {
    && db.escrows == [] && db.rows == []
    && (forall s :: s in db.stores ==> s.pending == s.frozen == s.balance == 0)
    && (forall w :: w in db.platform ==> w == PlatformWallet(0, 0, 0, 0))
  }

  /** From an opening ledger: the three balances and each platform wallet are exactly the sums they stand for. */
  lemma LedgerBalanced(states: seq<Ledger>, actions: seq<Action>)
    requires IsRun(states, actions) && Opening(states[0])
    ensures var db := states[|actions|];
            && Sum(db.stores, Pot(HELD)) == Sum(db.escrows, Share(HELD))
            && Sum(db.stores, Pot(FROZEN)) == Sum(db.escrows, Share(FROZEN)) + Sum(db.rows, OfKind(FRAUD_PENALTY))
            && Sum(db.stores, Pot(RELEASED)) == Sum(db.escrows, Share(RELEASED)) - Sum(db.rows, Debited())
            && forall w :: w in db.platform ==>
                 && w.commission == Sum(db.escrows, EarnedCommission())
                 && w.fees == Sum(db.escrows, EarnedFee()) + w.fined
                 && w.revenue == w.commission + w.fees
  {
    var first, db := states[0], states[|actions|];
    RunConserves(states, actions);
    forall status | status in {HELD, FROZEN, RELEASED} ensures Gap(first, status) == 0 {
      SumNonNegative(first.stores, Pot(status));
    }
    forall w | w in db.platform
      ensures w.commission == Sum(db.escrows, EarnedCommission()) && w.fees == Sum(db.escrows, EarnedFee()) + w.fined
              && w.revenue == w.commission + w.fees
    {
      var i :| 0 <= i < |db.platform| && db.platform[i] == w;
      assert GapsOf(db).platform[i] == GapsOf(first).platform[i];
      assert first.platform[i] in first.platform;
    }
  }
}
