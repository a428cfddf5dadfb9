/**
 * The hourly auto-release. It walks a snapshot of the HELD rows, but each release re-reads the table and takes
 * any HELD row of the order, so that no call comes up empty is a matter of counting.
 */
module AutoRelease {
  import opened Lists
  import opened EscrowLedger
  import opened MoneyStates
  import opened EscrowInvariants
  import opened EscrowHistory
  import opened EscrowServices

  const DAY: int := 24 * 60 * 60 * 1000

  datatype OrderClock = OrderClock(completed: bool, updatedAt: int)

  predicate Due(clocks: seq<OrderClock>, now: int, order: nat) {
    order < |clocks| && clocks[order].completed && clocks[order].updatedAt <= now - DAY
  }

  // ---- Counting ------------------------------------------------------------------------------------

  function IsHeld(): Escrow -> bool {
    (e: Escrow) => e.status == HELD
  }

  function InOrder(order: nat): Escrow -> int {
    (e: Escrow) => if e.order == order then 1 else 0
  }

  function HeldIn(order: nat): Escrow -> int {
    (e: Escrow) => if e.status == HELD && e.order == order then 1 else 0
  }

  lemma {:induction false} SnapshotCounts(escrows: seq<Escrow>, order: nat)
    ensures Sum(Filter(escrows, IsHeld()), InOrder(order)) == Sum(escrows, HeldIn(order))
  {
    if escrows != [] {
      var init, last := escrows[..|escrows| - 1], escrows[|escrows| - 1];
      SnapshotCounts(init, order);
      if last.status == HELD { SumAppend(Filter(init, IsHeld()), last, InOrder(order)); }
    }
  }

  /** Reading one more row of the snapshot; there is at least that one left to account for. */
  lemma PrefixCount(snapshot: seq<Escrow>, i: nat, order: nat)
    requires i < |snapshot|
    ensures Sum(snapshot[..i + 1], InOrder(order)) == Sum(snapshot[..i], InOrder(order)) + InOrder(order)(snapshot[i])
    ensures Sum(snapshot[..i + 1], InOrder(order)) <= Sum(snapshot, InOrder(order))
  {
    assert snapshot[..i + 1] == snapshot[..i] + [snapshot[i]];
    SumAppend(snapshot[..i], snapshot[i], InOrder(order));
    assert snapshot == snapshot[..i + 1] + snapshot[i + 1..];
    SumConcat(snapshot[..i + 1], snapshot[i + 1..], InOrder(order));
    SumNonNegative(snapshot[i + 1..], InOrder(order));
  }

  /** What is left of the held rows of a due order is exactly what is left of the snapshot. */
  ghost predicate Counted(snapshot: seq<Escrow>, i: nat, db: Ledger, clocks: seq<OrderClock>, now: int)
    requires i <= |snapshot|
  {
    forall o: nat :: Due(clocks, now, o) ==>
      Sum(db.escrows, HeldIn(o)) == Sum(snapshot, InOrder(o)) - Sum(snapshot[..i], InOrder(o))
  }

  lemma StartCounted(db: Ledger, clocks: seq<OrderClock>, now: int)
    ensures Counted(Filter(db.escrows, IsHeld()), 0, db, clocks, now)
  {
    forall o: nat ensures Sum(db.escrows, HeldIn(o)) == Sum(Filter(db.escrows, IsHeld()), InOrder(o)) {
      SnapshotCounts(db.escrows, o);
    }
  }

  /** A row of a due order is still ahead in the snapshot, so a held row of that order is still in the table. */
  lemma NeverEmpty(snapshot: seq<Escrow>, i: nat, db: Ledger, clocks: seq<OrderClock>, now: int)
    requires i < |snapshot| && Counted(snapshot, i, db, clocks, now) && Due(clocks, now, snapshot[i].order)
    ensures !Picks(db, snapshot[i].order, {HELD}, None)
  {
    var o := snapshot[i].order;
    PrefixCount(snapshot, i, o);
    SumNonNegative(db.escrows, HeldIn(o));
  }

  lemma SkipCounted(snapshot: seq<Escrow>, i: nat, db: Ledger, clocks: seq<OrderClock>, now: int)
    requires i < |snapshot| && Counted(snapshot, i, db, clocks, now) && !Due(clocks, now, snapshot[i].order)
    ensures Counted(snapshot, i + 1, db, clocks, now)
  {
    forall o: nat | Due(clocks, now, o) ensures Sum(snapshot[..i + 1], InOrder(o)) == Sum(snapshot[..i], InOrder(o)) {
      PrefixCount(snapshot, i, o);
    }
  }

  lemma ReleaseCounted(snapshot: seq<Escrow>, i: nat, before: Ledger, after: Ledger, e: nat, clocks: seq<OrderClock>,
                       now: int)
    requires i < |snapshot| && Counted(snapshot, i, before, clocks, now)
    requires e < |before.escrows| && before.escrows[e].status == HELD && before.escrows[e].order == snapshot[i].order
    requires after.escrows == before.escrows[e := before.escrows[e].(status := RELEASED)]
    ensures Counted(snapshot, i + 1, after, clocks, now)
  {
    forall o: nat | Due(clocks, now, o)
      ensures Sum(after.escrows, HeldIn(o)) == Sum(snapshot, InOrder(o)) - Sum(snapshot[..i + 1], InOrder(o))
    {
      PrefixCount(snapshot, i, o);
      SumUpdate(before.escrows, e, before.escrows[e].(status := RELEASED), HeldIn(o));
    }
  }

  lemma Drained(snapshot: seq<Escrow>, db: Ledger, clocks: seq<OrderClock>, now: int)
    requires Counted(snapshot, |snapshot|, db, clocks, now)
    ensures forall row :: row in db.escrows && row.status == HELD ==> !Due(clocks, now, row.order)
  {
    assert snapshot[..|snapshot|] == snapshot;
    forall row | row in db.escrows && Due(clocks, now, row.order) ensures row.status != HELD {
      SumNonNegative(db.escrows, HeldIn(row.order));
    }
  }

  // ---- What the job may do to the ledger ------------------------------------------------------------

  /** Stripe accounts, offers and their stores are the same. */
  ghost predicate SameAccounts(before: Ledger, after: Ledger) {
    && |after.payments| == |before.payments| && |after.stores| == |before.stores|
    && (forall p :: 0 <= p < |before.payments| ==> after.payments[p].store == before.payments[p].store)
    && (forall k :: 0 <= k < |before.stores| ==> after.stores[k].hasStripeAccount == before.stores[k].hasStripeAccount)
  }

  predicate Payable(db: Ledger, e: nat, transferOk: nat -> bool) {
    && e < |db.escrows| && db.escrows[e].payment < |db.payments|
       && db.payments[db.escrows[e].payment].store < |db.stores|
    && db.stores[db.payments[db.escrows[e].payment].store].hasStripeAccount && transferOk(e)
  }

  ghost predicate AllPayable(db: Ledger, clocks: seq<OrderClock>, now: int, transferOk: nat -> bool) {
    forall e: nat :: e < |db.escrows| && db.escrows[e].status == HELD && Due(clocks, now, db.escrows[e].order)
      ==> Payable(db, e, transferOk)
  }

  /** Row e ended RELEASED, having been a held row of a due order. */
  predicate ReleasedNow(before: Ledger, after: Ledger, e: nat, clocks: seq<OrderClock>, now: int) {
    && e < |before.escrows| && e < |after.escrows|
    && before.escrows[e].status == HELD && Due(clocks, now, before.escrows[e].order)
    && after.escrows[e] == before.escrows[e].(status := RELEASED)
  }

  /** Every row is untouched or released once, with exactly one payout row for each release. */
  ghost predicate OnlyReleases(before: Ledger, after: Ledger, clocks: seq<OrderClock>, now: int) {
    RowsReleased(before, after, clocks, now) && PayoutsMatch(before, after, clocks, now)
  }

  ghost predicate RowsReleased(before: Ledger, after: Ledger, clocks: seq<OrderClock>, now: int) {
    && |after.escrows| == |before.escrows|
    && forall e: nat :: e < |before.escrows| ==>
         after.escrows[e] == before.escrows[e] || ReleasedNow(before, after, e, clocks, now)
  }

  ghost predicate PayoutsMatch(before: Ledger, after: Ledger, clocks: seq<OrderClock>, now: int) {
    forall e: nat :: Sum(after.rows, PaysOut(e))
      == Sum(before.rows, PaysOut(e)) + if ReleasedNow(before, after, e, clocks, now) then 1 else 0
  }

  lemma OneMoreRow(first: Ledger, before: Ledger, after: Ledger, e: nat, clocks: seq<OrderClock>, now: int)
    requires RowsReleased(first, before, clocks, now) && e < |before.escrows|
    requires before.escrows[e].status == HELD && Due(clocks, now, before.escrows[e].order)
    requires after.escrows == before.escrows[e := before.escrows[e].(status := RELEASED)]
    ensures RowsReleased(first, after, clocks, now)
    ensures !ReleasedNow(first, before, e, clocks, now) && ReleasedNow(first, after, e, clocks, now)
    ensures forall other: nat :: other != e ==>
              ReleasedNow(first, after, other, clocks, now) == ReleasedNow(first, before, other, clocks, now)
  {
  }

  lemma OneMoreRelease(first: Ledger, before: Ledger, e: nat, clocks: seq<OrderClock>, now: int)
    requires WellFormed(before) && OnlyReleases(first, before, clocks, now) && e < |before.escrows|
    requires before.escrows[e].status == HELD && Due(clocks, now, before.escrows[e].order)
    requires Release(before, Some(e), true).1 == Done
    ensures OnlyReleases(first, Release(before, Some(e), true).0, clocks, now)
  {
    var after := Release(before, Some(e), true).0;
    assert after.escrows == before.escrows[e := before.escrows[e].(status := RELEASED)];
    OneMoreRow(first, before, after, e, clocks, now);
    forall other: nat ensures Sum(after.rows, PaysOut(other))
        == Sum(first.rows, PaysOut(other)) + if ReleasedNow(first, after, other, clocks, now) then 1 else 0 {
      ReleasePaysOne(before, Some(e), true, other);
    }
  }

  lemma ReleaseFacts(db: Ledger, pick: Option<nat>, transferOk: nat -> bool)
    requires WellFormed(db) && pick.Some? && pick.value < |db.escrows|
    ensures var (after, outcome) := Release(db, pick, transferOk(pick.value));
            && outcome in {Done, NoStripeAccount, TransferFailed}
            && (outcome == Done <==> Payable(db, pick.value, transferOk))
            && (outcome == Done ==>
                after.escrows == db.escrows[pick.value := db.escrows[pick.value].(status := RELEASED)])
            && (outcome != Done ==> after == db)
            && SameAccounts(db, after) && WellFormed(after)
  {
    ReleaseWellFormed(db, pick, transferOk(pick.value));
    assert db.escrows[pick.value] in db.escrows;
    assert db.payments[db.escrows[pick.value].payment] in db.payments;
  }

  /** What holds between two iterations. */
  ghost predicate Midway(first: Ledger, db: Ledger, snapshot: seq<Escrow>, i: nat, clocks: seq<OrderClock>, now: int) {
    && i <= |snapshot| && WellFormed(db) && SameAccounts(first, db) && Counted(snapshot, i, db, clocks, now)
    && OnlyReleases(first, db, clocks, now) && GapsOf(db) == GapsOf(first)
  }

  lemma NotPayable(first: Ledger, db: Ledger, e: nat, transferOk: nat -> bool, clocks: seq<OrderClock>, now: int)
    requires RowsReleased(first, db, clocks, now) && SameAccounts(first, db) && e < |db.escrows|
    requires db.escrows[e].status == HELD && Due(clocks, now, db.escrows[e].order) && !Payable(db, e, transferOk)
    ensures !AllPayable(first, clocks, now, transferOk)
  {
    assert first.escrows[e] == db.escrows[e];
    assert !Payable(first, e, transferOk);
  }

  lemma Advance(first: Ledger, db: Ledger, snapshot: seq<Escrow>, i: nat, e: nat, clocks: seq<OrderClock>, now: int)
    requires Midway(first, db, snapshot, i, clocks, now) && i < |snapshot| && Due(clocks, now, snapshot[i].order)
    requires e < |db.escrows| && db.escrows[e].status == HELD && db.escrows[e].order == snapshot[i].order
    requires Payable(db, e, (x: nat) => true)
    ensures Release(db, Some(e), true).1 == Done
            && Midway(first, Release(db, Some(e), true).0, snapshot, i + 1, clocks, now)
  {
    var after := Release(db, Some(e), true).0;
    ReleaseFacts(db, Some(e), (x: nat) => true);
    ReleaseKeepsGaps(db, Some(e), true);
    OneMoreRelease(first, db, e, clocks, now);
    ReleaseCounted(snapshot, i, db, after, e, clocks, now);
  }

  /** One due row of the snapshot: some held row of the order is there; it is released, or it was not payable. */
  lemma ReleaseStep(first: Ledger, db: Ledger, snapshot: seq<Escrow>, i: nat, pick: Option<nat>,
                    transferOk: nat -> bool,
                    clocks: seq<OrderClock>, now: int)
    requires Midway(first, db, snapshot, i, clocks, now) && i < |snapshot| && Due(clocks, now, snapshot[i].order)
    requires Picks(db, snapshot[i].order, {HELD}, pick)
    ensures pick.Some?
    ensures var (after, outcome) := Release(db, pick, transferOk(pick.value));
            if outcome == Done then Midway(first, after, snapshot, i + 1, clocks, now)
            else
              && after == db && outcome in {NoStripeAccount, TransferFailed}
              && !AllPayable(first, clocks, now, transferOk)
  {
    NeverEmpty(snapshot, i, db, clocks, now);
    var e := pick.value;
    ReleaseFacts(db, pick, transferOk);
    if Payable(db, e, transferOk) {
      Advance(first, db, snapshot, i, e, clocks, now);
    } else {
      NotPayable(first, db, e, transferOk, clocks, now);
    }
  }

  /** Released are exactly the held rows of orders completed and last updated 24 hours ago or earlier. */
  ghost predicate Drains(before: seq<Escrow>, after: seq<Escrow>, clocks: seq<OrderClock>, now: int) {
    && |after| == |before|
    && forall e :: 0 <= e < |before| ==>
         var row := before[e];
         after[e] == if && row.status == HELD && row.order < |clocks| && clocks[row.order].completed
                        && clocks[row.order].updatedAt + 24 * 60 * 60 * 1000 <= now
                     then row.(status := RELEASED) else row
  }

  lemma ReleasedExactly(before: Ledger, after: Ledger, clocks: seq<OrderClock>, now: int)
    requires RowsReleased(before, after, clocks, now)
    requires forall row :: row in after.escrows && row.status == HELD ==> !Due(clocks, now, row.order)
    ensures Drains(before.escrows, after.escrows, clocks, now)
  {
    forall e: nat | e < |before.escrows|
      ensures after.escrows[e] != before.escrows[e] <==> before.escrows[e].status == HELD
                                                         && Due(clocks, now, before.escrows[e].order)
    {
      assert after.escrows[e] in after.escrows;
    }
  }

  class EscrowCronService {
    const db: Database
    const escrowService: EscrowService

    constructor (db: Database, escrowService: EscrowService)
      requires escrowService.db == db
      ensures this.db == db && this.escrowService == escrowService
    {
      this.db := db;
      this.escrowService := escrowService;
    }

    /** One row of the snapshot; its order decides. */
    method HandleRow(ghost first: Ledger, snapshot: seq<Escrow>, i: nat, clocks: seq<OrderClock>, now: int,
                     transferOk: nat -> bool)
      returns (outcome: Outcome)
      requires escrowService.db == db && i < |snapshot| && Midway(first, db.tables, snapshot, i, clocks, now)
      modifies db
      ensures outcome == Done ==> Midway(first, db.tables, snapshot, i + 1, clocks, now)
      ensures outcome != Done ==> outcome in {NoStripeAccount, TransferFailed} && db.tables == old(db.tables)
                                  && !AllPayable(first, clocks, now, transferOk)
    {
      outcome := Done;
      var order := snapshot[i].order;
      if order < |clocks| && clocks[order].completed && clocks[order].updatedAt <= now - DAY {
        ghost var before := db.tables;
        ghost var pick: Option<nat>;
        outcome, pick := escrowService.ReleaseFunds(order, transferOk);
        ReleaseStep(first, before, snapshot, i, pick, transferOk, clocks, now);
      } else {
        SkipCounted(snapshot, i, db.tables, clocks, now);
      }
    }

    /**
     * `transferOk` is Stripe's answer for each row. The first exception ends the job; it is never "no HELD
     * escrow". A job that ends normally has drained exactly the due orders, and it does so whenever every due held
     * row is payable.
     */
    method HandleAutoRelease(clocks: seq<OrderClock>, now: int, transferOk: nat -> bool) returns (outcome: Outcome)
      requires escrowService.db == db && WellFormed(db.tables)
      modifies db
      ensures outcome in {Done, NoStripeAccount, TransferFailed}
      ensures WellFormed(db.tables) && OnlyReleases(old(db.tables), db.tables, clocks, now)
      ensures outcome == Done ==> Drains(old(db.tables).escrows, db.tables.escrows, clocks, now)
      ensures AllPayable(old(db.tables), clocks, now, transferOk) ==> outcome == Done
      ensures GapsOf(db.tables) == GapsOf(old(db.tables))
    {
      ghost var first := db.tables;
      var snapshot := Filter(db.tables.escrows, IsHeld());
      StartCounted(db.tables, clocks, now);
      outcome := Done;
      var i := 0;
      while i < |snapshot|
        invariant outcome == Done && Midway(first, db.tables, snapshot, i, clocks, now)
      {
        outcome := HandleRow(first, snapshot, i, clocks, now, transferOk);
        if outcome != Done { return; }
        i := i + 1;
      }
      Drained(snapshot, db.tables, clocks, now);
      ReleasedExactly(first, db.tables, clocks, now);
    }
  }
}
