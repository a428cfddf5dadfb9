/** Which ways an escrow row can move over a run, and how often it can pay out. */
module EscrowHistory {
  import opened Lists
  import opened EscrowLedger
  import opened MoneyStates

  /** HELD may go anywhere, FROZEN only to REFUNDED; RELEASED and REFUNDED are final. */
  predicate LegalEdge(from: EscrowStatus, to: EscrowStatus) {
    from == to || from == HELD || (from == FROZEN && to == EscrowStatus.REFUNDED)
  }

  /** Every escrow row of `before` is still there in `after`, changed at most along a legal edge. */
  ghost predicate Evolves(before: Ledger, after: Ledger) {
    && |before.escrows| <= |after.escrows|
    && forall i :: 0 <= i < |before.escrows| ==>
         && after.escrows[i] == before.escrows[i].(status := after.escrows[i].status)
         && LegalEdge(before.escrows[i].status, after.escrows[i].status)
  }

  function PaysOut(e: nat): VendorRow -> int {
    (r: VendorRow) => if r.kind == ESCROW_PAYMENT(e) then 1 else 0
  }

  /** At most one payout row per escrow, and only once it is released. */
  ghost predicate PaidOnce(db: Ledger) {
    forall e: nat :: Sum(db.rows, PaysOut(e)) <= if e < |db.escrows| && db.escrows[e].status == RELEASED then 1 else 0
  }

  /** What no action rewrites: the orders, and which offer's store a payment belongs to. */
  ghost predicate KeepsReferences(before: Ledger, after: Ledger) {
    && after.orders == before.orders && |after.stores| == |before.stores| && |after.payments| == |before.payments|
    && forall p :: 0 <= p < |before.payments| ==> after.payments[p].store == before.payments[p].store
  }

  ghost predicate Updates(before: Ledger, after: Ledger) {
    Evolves(before, after) && KeepsReferences(before, after) && |after.escrows| == |before.escrows|
  }

  lemma RealizeUpdates(db: Ledger, e: nat, k: nat)
    requires e < |db.escrows| && k < |db.stores| && db.escrows[e].status == HELD
    ensures Updates(db, Realize(db, e, k))
  {
  }

  lemma ReleaseUpdates(db: Ledger, pick: Option<nat>, transferOk: bool)
    requires WellFormed(db) && (pick.Some? ==> pick.value < |db.escrows| && db.escrows[pick.value].status == HELD)
    ensures Updates(db, Release(db, pick, transferOk).0)
  {
  }

  lemma FreezeUpdates(db: Ledger, pick: Option<nat>)
    requires WellFormed(db) && (pick.Some? ==> pick.value < |db.escrows| && db.escrows[pick.value].status == HELD)
    ensures Updates(db, Freeze(db, pick).0)
  {
  }

  lemma RefundUpdates(db: Ledger, pick: Option<nat>, amount: real, stripeOk: bool)
    requires WellFormed(db)
             && (pick.Some? ==> pick.value < |db.escrows| && db.escrows[pick.value].status in {HELD, FROZEN})
    ensures Updates(db, Refund(db, pick, amount, stripeOk).0)
  {
  }

  lemma VerdictUpdates(db: Ledger, kind: VerdictKind, k: Option<nat>, price: int, x: Option<Extra>, pick: Option<nat>,
                       ok: bool)
    requires WellFormed(db) && (k.Some? ==> k.value < |db.stores|)
    requires pick.Some? ==> pick.value < |db.escrows| && db.escrows[pick.value].status in PickedFrom(kind)
    ensures Updates(db, Verdict(db, kind, k, price, x, pick, ok).0)
  {
    if x.Some? && kind == VerdictKind.REFUND {
      var charged := if k.Some? then Charges(db, k.value, x.value) else db;
      assert WellFormed(charged);
      RefundUpdates(charged, pick, NetRefund(price, x.value), ok);
    } else if x.Some? && pick.Some? && k.Some? {
      RealizeUpdates(db, pick.value, k.value);
    }
  }

  lemma StepEvolves(db: Ledger, a: Action)
    requires WellFormed(db) && Enabled(db, a)
    ensures Evolves(db, Step(db, a)) && KeepsReferences(db, Step(db, a))
    ensures if a.HoldFunds?
            then Step(db, a).escrows
                == db.escrows + [Escrow(a.payment, a.order, a.merchant, a.commission, a.shipping, a.gatewayFee, HELD)]
            else |Step(db, a).escrows| == |db.escrows|
  {
    match a
    case HoldFunds(p, _, _, _, _, _, _) => assert db.payments[p] in db.payments;
    case ReleaseFunds(_, pick, ok) => ReleaseUpdates(db, pick, ok);
    case FreezeFunds(_, pick) => FreezeUpdates(db, pick);
    case ProcessRefund(_, pick, amount, ok) => RefundUpdates(db, pick, amount, ok);
    case IssueVerdict(_, kind, k, price, x, pick, ok) => VerdictUpdates(db, kind, k, price, x, pick, ok);
    case FineIssued(_, _, _) =>
    case PaidFromBalance(_, _, _) =>
  }

  lemma ChargesAddNoPayout(db: Ledger, k: nat, x: Extra, e: nat)
    requires k < |db.stores|
    ensures Sum(Charges(db, k, x).rows, PaysOut(e)) == Sum(db.rows, PaysOut(e))
  {
    var shipped := if ChargesMerchant(x) then TakeFrom(db, k, SHIPPING_FEE, x.shippingRoundtrip) else db;
    if ChargesMerchant(x) { SumAppend(db.rows, shipped.rows[|db.rows|], PaysOut(e)); }
    if x.fraud { SumAppend(shipped.rows, Charges(db, k, x).rows[|shipped.rows|], PaysOut(e)); }
  }

  lemma ReleasePaysOne(db: Ledger, pick: Option<nat>, transferOk: bool, e: nat)
    requires WellFormed(db) && (pick.Some? ==> pick.value < |db.escrows| && db.escrows[pick.value].status == HELD)
    ensures Sum(Release(db, pick, transferOk).0.rows, PaysOut(e)) == Sum(db.rows, PaysOut(e))
            + if Release(db, pick, transferOk).1 == Done && pick == Some(e) then 1 else 0
  {
    if Release(db, pick, transferOk).1 == Done {
      var k, credit := ReleaseShape(db, pick, transferOk);
      SumAppend(db.rows, credit, PaysOut(e));
    }
  }

  lemma RefundRows(db: Ledger, pick: Option<nat>, amount: real, stripeOk: bool)
    requires WellFormed(db) && (pick.Some? ==> pick.value < |db.escrows|)
    ensures Refund(db, pick, amount, stripeOk).0.rows == db.rows
  {
  }

  lemma VerdictAddsNoPayout(db: Ledger, kind: VerdictKind, k: Option<nat>, price: int, x: Option<Extra>,
                            pick: Option<nat>, ok: bool, e: nat)
    requires WellFormed(db) && (k.Some? ==> k.value < |db.stores|) && (pick.Some? ==> pick.value < |db.escrows|)
    ensures Sum(Verdict(db, kind, k, price, x, pick, ok).0.rows, PaysOut(e)) == Sum(db.rows, PaysOut(e))
  {
    if x.Some? {
      if k.Some? { ChargesAddNoPayout(db, k.value, x.value, e); }
      var charged := if k.Some? then Charges(db, k.value, x.value) else db;
      RefundRows(charged, pick, NetRefund(price, x.value), ok);
    }
  }

  lemma TakesPayNothing(db: Ledger, k: nat, kind: RowKind, amount: int, e: nat)
    requires k < |db.stores| && !kind.ESCROW_PAYMENT?
    ensures Sum(TakeFrom(db, k, kind, amount).rows, PaysOut(e)) == Sum(db.rows, PaysOut(e))
  {
    SumAppend(db.rows, VendorRow(k, kind, amount, db.stores[k].balance - amount), PaysOut(e));
  }

  lemma StepPaysOnce(db: Ledger, a: Action)
    requires WellFormed(db) && Enabled(db, a) && PaidOnce(db)
    ensures PaidOnce(Step(db, a))
  {
    var after := Step(db, a);
    StepEvolves(db, a);
    forall e: nat
      ensures Sum(after.rows, PaysOut(e)) <= if e < |after.escrows| && after.escrows[e].status == RELEASED then 1 else 0
    {
      match a
      case HoldFunds(p, _, _, _, _, _, _) => assert db.payments[p] in db.payments;
      case ReleaseFunds(_, pick, ok) => ReleasePaysOne(db, pick, ok, e);
      case FreezeFunds(_, _) => assert after.rows == db.rows;
      case ProcessRefund(_, pick, amount, ok) => RefundRows(db, pick, amount, ok);
      case IssueVerdict(_, kind, k, price, x, pick, ok) => VerdictAddsNoPayout(db, kind, k, price, x, pick, ok, e);
      case FineIssued(k, _, amount) => if k.Some? { TakesPayNothing(db, k.value, VIOLATION_FINE, amount, e); }
      case PaidFromBalance(k, kind, amount) => TakesPayNothing(db, k, kind, amount, e);
    }
  }

  /** Over any run, released and refunded rows are final, frozen rows are never released, and nothing pays twice. */
  lemma {:induction false} RunHistory(states: seq<Ledger>, actions: seq<Action>)
    requires IsRun(states, actions)
    ensures Evolves(states[0], states[|actions|])
    ensures PaidOnce(states[0]) ==> PaidOnce(states[|actions|])
  {
    if actions != [] {
      var n := |actions| - 1;
      RunHistory(states[..n + 1], actions[..n]);
      assert Follows(states[n], actions[n], states[n + 1]);
      StepEvolves(states[n], actions[n]);
      if PaidOnce(states[0]) { StepPaysOnce(states[n], actions[n]); }
    }
  }
}
