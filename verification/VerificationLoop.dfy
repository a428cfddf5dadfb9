/** The verification loop: submission, admin review, one correction, and the minute job's timeout. */
module VerificationLoop {
  import opened Lists
  import opened OrderStates
  import opened OrderTimers

  datatype Outcome = Done | Forbidden | BadStatus | NoDocument

  // ---- The calls, each an update outside the transition table ------------------------------------------

  /** `owns`: the store has an accepted offer of the order. */
  function SubmitVerification(o: Order, owns: bool): (Order, Outcome) {
    if !owns then (o, Forbidden)
    else if o.status != PREPARED then (o, BadStatus)
    else (o.(status := VERIFICATION, documents := o.documents + 1), Done)
  }

  /** A rejection gives 48 hours for a correction; the second one cancels. */
  function Review(o: Order, approve: bool, now: int): (Order, Outcome) {
    if o.status != VERIFICATION && o.status != CORRECTION_SUBMITTED then (o, BadStatus)
    else if o.documents == 0 then (o, NoDocument)
    else if approve then (o.(status := VERIFICATION_SUCCESS, correctionDeadline := None), Done)
    else if o.rejectionCount + 1 >= 2 then
      (o.(status := CANCELLED, correctionDeadline := None, rejectionCount := o.rejectionCount + 1), Done)
    else
      (o.(status := NON_MATCHING, correctionDeadline := Some(now + 48 * HOUR),
          rejectionCount := o.rejectionCount + 1), Done)
  }

  function SubmitCorrection(o: Order, owns: bool): (Order, Outcome) {
    if !owns then (o, Forbidden)
    else if o.status != CORRECTION_PERIOD && o.status != NON_MATCHING then (o, BadStatus)
    else (o.(status := CORRECTION_SUBMITTED, documents := o.documents + 1), Done)
  }

  /** The loop's own four moves; a guarded transition asked for directly; and whatever else is written into the row. */
  datatype Action =
    | Submitted(owns: bool) | Reviewed(approve: bool) | Corrected(owns: bool) | Ticked
    | Requested(to: OrderStatus) | Written(row: Order)

  function Step(o: Order, a: Action, now: int): Order {
    match a
    case Submitted(owns) => SubmitVerification(o, owns).0
    case Reviewed(approve) => Review(o, approve, now).0
    case Corrected(owns) => SubmitCorrection(o, owns).0
    case Ticked => Tick(o, now)
    case Requested(to) => Transition(o, to, now)
    case Written(row) => row
  }

  predicate IsOwn(a: Action) {
    !a.Requested? && !a.Written?
  }

  datatype Call = Call(action: Action, at: int)

  function Run(o: Order, calls: seq<Call>): Order {
    if calls == [] then o else Step(Run(o, calls[..|calls| - 1]), calls[|calls| - 1].action, calls[|calls| - 1].at)
  }

  /** The states the loop can be in, with what each of them guarantees; a review always finds a document. */
  predicate InLoop(o: Order) {
    match o.status
    case PREPARED => o.rejectionCount == 0
    case VERIFICATION => o.rejectionCount == 0 && o.documents >= 1
    case NON_MATCHING => o.rejectionCount == 1 && o.correctionDeadline.Some?
    case CORRECTION_PERIOD => o.rejectionCount == 1 && o.correctionDeadline.Some?
    case CORRECTION_SUBMITTED => o.rejectionCount == 1 && o.documents >= 1
    case VERIFICATION_SUCCESS => o.rejectionCount <= 1
    case CANCELLED => o.rejectionCount <= 2
    case _ => false
  }

  /** The measure: rejections left, then how far the order still has to go before the next review. */
  function RejectionsLeft(o: Order): int {
    2 - o.rejectionCount
  }

  function StagesLeft(o: Order): nat {
    match o.status
    case PREPARED => 4
    case NON_MATCHING => 4
    case CORRECTION_PERIOD => 3
    case VERIFICATION => 2
    case CORRECTION_SUBMITTED => 2
    case VERIFICATION_SUCCESS => 1
    case _ => 0
  }

  predicate Decreases(before: Order, after: Order) {
    || RejectionsLeft(after) < RejectionsLeft(before)
    || (RejectionsLeft(after) == RejectionsLeft(before) && StagesLeft(after) < StagesLeft(before))
  }

  /** Every call that moves the order decreases the measure; a rejection uses one up, and the second cancels. */
  lemma StepDecreases(o: Order, a: Action, now: int)
    requires InLoop(o) && IsOwn(a)
    ensures var after := Step(o, a, now);
            && InLoop(after)
            && (after.status != o.status ==> Decreases(o, after))
            && (after.status == o.status ==> after == o)
            && (a == Reviewed(false) && after != o ==>
                  after.rejectionCount == o.rejectionCount + 1
                      && (after.status == CANCELLED <==> after.rejectionCount == 2))
  {
  }

  /** The calls of a run that moved the order and satisfy p. */
  function Effective(o: Order, calls: seq<Call>, p: Action -> bool): nat {
    if calls == [] then 0
    else
      var before := Run(o, calls[..|calls| - 1]);
      Effective(o, calls[..|calls| - 1], p) + if Run(o, calls) != before && p(calls[|calls| - 1].action) then 1 else 0
  }

  function Any(): Action -> bool { (a: Action) => true }
  function Own(): Action -> bool { (a: Action) => IsOwn(a) }
  function Outside(): Action -> bool { (a: Action) => !IsOwn(a) }
  function AReview(): Action -> bool { (a: Action) => a.Reviewed? }
  function ACorrection(): Action -> bool { (a: Action) => a.Corrected? }

  /** How many moves, reviews and corrections can lie behind a state of the loop. */
  predicate Behind(o: Order, moves: nat, reviews: nat, corrections: nat) {
    match o.status
    case PREPARED => moves == 0 && reviews == 0 && corrections == 0
    case VERIFICATION => moves <= 1 && reviews == 0 && corrections == 0
    case NON_MATCHING => moves <= 2 && reviews == 1 && corrections == 0
    case CORRECTION_PERIOD => moves <= 3 && reviews == 1 && corrections == 0
    case CORRECTION_SUBMITTED => moves <= 4 && reviews == 1 && corrections == 1
    case _ => moves <= 5 && reviews <= 2 && corrections <= 1
  }

  /**
   * From PREPARED without rejections, under any of the loop's own moves in any order: the order stays in the loop's
   * states, at most five calls ever move it, at most two of them reviews and one a correction. While a correction is
   * awaited its deadline is set, so the timeout can end it.
   */
  lemma {:induction false} LoopEnds(o: Order, calls: seq<Call>)
    requires o.status == PREPARED && o.rejectionCount == 0 && forall c :: c in calls ==> IsOwn(c.action)
    ensures InLoop(Run(o, calls))
    ensures Behind(Run(o, calls), Effective(o, calls, Any()), Effective(o, calls, AReview()),
                   Effective(o, calls, ACorrection()))
    ensures Effective(o, calls, Any()) <= 5 && Effective(o, calls, AReview()) <= 2
            && Effective(o, calls, ACorrection()) <= 1
  {
    if calls != [] {
      var init, last := calls[..|calls| - 1], calls[|calls| - 1];
      assert last in calls && forall c :: c in init ==> c in calls;
      LoopEnds(o, init);
      var before := Run(o, init);
      StepDecreases(before, last.action, last.at);
      StepBehind(before, last.action, last.at, Effective(o, init, Any()), Effective(o, init, AReview()),
                 Effective(o, init, ACorrection()));
    }
  }

  lemma StepBehind(o: Order, a: Action, now: int, moves: nat, reviews: nat, corrections: nat)
    requires InLoop(o) && IsOwn(a) && Behind(o, moves, reviews, corrections)
    ensures var after := Step(o, a, now);
            after != o ==> Behind(after, moves + 1, reviews + (if a.Reviewed? then 1 else 0),
                                  corrections + (if a.Corrected? then 1 else 0))
  {
  }

  // ---- How the loop ends --------------------------------------------------------------------------------------

  function Approving(): Action -> bool { (a: Action) => a == Reviewed(true) }
  function Rejecting(): Action -> bool { (a: Action) => a == Reviewed(false) }

  /** A tick later than the deadline of an awaited correction, and two minutes after the order last moved by itself. */
  predicate TimesOut(o: Order, c: Call) {
    && c.action == Ticked && o.status in {NON_MATCHING, CORRECTION_PERIOD}
    && o.correctionDeadline.Some? && o.correctionDeadline.value < c.at
    && (o.status == NON_MATCHING ==> o.updatedAt + 2 * 60 * 1000 < c.at)
  }

  function Timeouts(o: Order, calls: seq<Call>): nat {
    if calls == [] then 0
    else
      var n := |calls| - 1;
      Timeouts(o, calls[..n]) + if TimesOut(Run(o, calls[..n]), calls[n]) then 1 else 0
  }

  /** When the order was last rejected by a review that went through. */
  function LastRejection(o: Order, calls: seq<Call>): Option<int> {
    if calls == [] then None
    else
      var n := |calls| - 1;
      if calls[n].action == Reviewed(false) && Run(o, calls) != Run(o, calls[..n]) then Some(calls[n].at)
      else LastRejection(o, calls[..n])
  }

  lemma StepEnds(o: Order, c: Call)
    requires InLoop(o) && IsOwn(c.action)
    ensures var after := Step(o, c.action, c.at);
            && (after.status == VERIFICATION_SUCCESS
                <==> o.status == VERIFICATION_SUCCESS || (c.action == Reviewed(true) && after != o))
            && after.rejectionCount == o.rejectionCount + (if c.action == Reviewed(false) && after != o then 1 else 0)
            && (after.status == CANCELLED
                <==> || o.status == CANCELLED || TimesOut(o, c)
                     || (c.action == Reviewed(false) && after != o && o.rejectionCount == 1))
            && (after != o ==> o.status !in {VERIFICATION_SUCCESS, CANCELLED})
            && (after.status in {NON_MATCHING, CORRECTION_PERIOD} ==>
                  after.correctionDeadline
                  == if c.action == Reviewed(false) && after != o then Some(c.at + 48 * 60 * 60 * 1000)
                     else o.correctionDeadline)
            && (after.status in {NON_MATCHING, CORRECTION_PERIOD} ==>
                  o.status in {NON_MATCHING, CORRECTION_PERIOD} || (c.action == Reviewed(false) && after != o))
  {
  }

  /**
   * From PREPARED without rejections, under any of the loop's own moves: the count of rejections is the number of
   * reviews that rejected it. The order is verified exactly if a review approved it, then by one alone, and cancelled
   * exactly if it was rejected twice, or once and then timed out. A correction is awaited until 48 hours after the
   * rejection.
   */
  lemma {:induction false} LoopOutcome(o: Order, calls: seq<Call>)
    requires o.status == PREPARED && o.rejectionCount == 0 && forall c :: c in calls ==> IsOwn(c.action)
    ensures var r := Run(o, calls);
            var approvals, rejections := Effective(o, calls, Approving()), Effective(o, calls, Rejecting());
            var timeouts := Timeouts(o, calls);
            && InLoop(r)
            && r.rejectionCount == rejections
            && (r.status == VERIFICATION_SUCCESS <==> approvals == 1) && approvals <= 1
            && (r.status == CANCELLED <==> rejections == 2 || timeouts == 1)
            && rejections <= 2 && timeouts <= 1 && (timeouts == 1 ==> rejections == 1)
            && (r.status in {NON_MATCHING, CORRECTION_PERIOD} ==>
                  && LastRejection(o, calls).Some?
                  && r.correctionDeadline == Some(LastRejection(o, calls).value + 48 * 60 * 60 * 1000))
  {
    if calls != [] {
      var init, last := calls[..|calls| - 1], calls[|calls| - 1];
      assert last in calls && forall c :: c in init ==> c in calls;
      LoopOutcome(o, init);
      StepDecreases(Run(o, init), last.action, last.at);
      StepEnds(Run(o, init), last);
    }
  }

  // ---- With others writing the row ------------------------------------------------------------------------

  /** The most moves the loop can still make by itself. */
  function Potential(o: Order): nat {
    var again := if o.rejectionCount == 0 then 3 else 0;
    match o.status
    case COLLECTING_OFFERS => 2
    case AWAITING_SELECTION => 1
    case AWAITING_PAYMENT => 1
    case PREPARATION => 2
    case DELAYED_PREPARATION => 1
    case PREPARED => 2 + again
    case VERIFICATION => 1 + again
    case NON_MATCHING => 3 + again
    case CORRECTION_PERIOD => 2 + again
    case CORRECTION_SUBMITTED => 1 + again
    case _ => 0
  }

  lemma OwnMoveSpends(o: Order, a: Action, now: int)
    requires IsOwn(a)
    ensures Step(o, a, now) == o || Potential(Step(o, a, now)) < Potential(o)
  {
  }

  /**
   * From any state, whatever transitions are asked for and whatever is written into the row in between: each such
   * intervention gives the loop at most six moves of its own, so it ends once they do.
   */
  lemma {:induction false} OwnMovesBounded(o: Order, calls: seq<Call>)
    ensures Effective(o, calls, Own()) + Potential(Run(o, calls)) <= Potential(o) + 6 * Effective(o, calls, Outside())
  {
    if calls != [] {
      var n := |calls| - 1;
      OwnMovesBounded(o, calls[..n]);
      if IsOwn(calls[n].action) { OwnMoveSpends(Run(o, calls[..n]), calls[n].action, calls[n].at); }
    }
  }

  lemma OneMore(o: Order, calls: seq<Call>, a: Action, at: int) returns (longer: seq<Call>)
    ensures var before, after := Run(o, calls), Step(Run(o, calls), a, at);
            && Run(o, longer) == after
            && Effective(o, longer, Own())
               == Effective(o, calls, Own()) + (if after != before && IsOwn(a) then 1 else 0)
            && Effective(o, longer, Outside())
               == Effective(o, calls, Outside()) + (if after != before && !IsOwn(a) then 1 else 0)
  {
    longer := calls + [Call(a, at)];
    assert longer[..|calls|] == calls;
  }

  lemma AroundOnce(o: Order, at: int)
    requires o.status == CORRECTION_SUBMITTED
    ensures var rejected := Step(o, Requested(NON_MATCHING), at);
            var corrected := Step(rejected, Corrected(true), at);
            && rejected != o && corrected != rejected
            && corrected.status == CORRECTION_SUBMITTED && corrected.rejectionCount == o.rejectionCount
  {
  }

  /**
   * The table has a cycle through CORRECTION_SUBMITTED and NON_MATCHING, and a transition asked for directly counts no
   * rejection: with n of them the loop makes n corrections and is where it was.
   */
  lemma {:induction false} CycleRuns(o: Order, n: nat, at: int) returns (calls: seq<Call>)
    requires o.status == CORRECTION_SUBMITTED
    ensures Run(o, calls).status == CORRECTION_SUBMITTED && Run(o, calls).rejectionCount == o.rejectionCount
    ensures Effective(o, calls, Outside()) == n == Effective(o, calls, Own())
  {
    if n == 0 {
      calls := [];
    } else {
      var before := CycleRuns(o, n - 1, at);
      AroundOnce(Run(o, before), at);
      var rejected := OneMore(o, before, Requested(NON_MATCHING), at);
      calls := OneMore(o, rejected, Corrected(true), at);
    }
  }

  lemma {:induction false} NoDeadlineNoEnd(o: Order, ticks: seq<int>)
    requires o.status in {NON_MATCHING, CORRECTION_PERIOD} && o.correctionDeadline.None?
    ensures Ticks(o, ticks).status in {NON_MATCHING, CORRECTION_PERIOD} && Ticks(o, ticks).correctionDeadline.None?
  {
    if ticks != [] { NoDeadlineNoEnd(o, ticks[..|ticks| - 1]); }
  }

  predicate TimedOutBy(o: Order, ticks: seq<int>) {
    Ticks(o, ticks).status == CANCELLED
  }

  /** An order awaiting a correction is ever timed out exactly if its deadline is set. */
  lemma TimesOutIff(o: Order)
    requires o.status in {NON_MATCHING, CORRECTION_PERIOD}
    ensures (exists ticks: seq<int> :: TimedOutBy(o, ticks)) <==> o.correctionDeadline.Some?
  {
    if o.correctionDeadline.None? {
      forall ticks: seq<int> ensures !TimedOutBy(o, ticks) { NoDeadlineNoEnd(o, ticks); }
    } else {
      var late := Later(o.correctionDeadline.value, o.updatedAt + TWO_MINUTES) + 1;
      var ticks := [late];
      assert ticks[..0] == [] && Ticks(o, ticks[..0]) == o;
      assert Tick(o, late).status == CANCELLED;
      assert TimedOutBy(o, ticks);
    }
  }

  /** A rejection by transition sets no deadline, so the order it rejects for the first time is never timed out. */
  lemma RequestedRejectionStays(o: Order, now: int, ticks: seq<int>)
    requires o.status == VERIFICATION && o.correctionDeadline.None?
    ensures var rejected := Step(o, Requested(NON_MATCHING), now);
            rejected.status == NON_MATCHING && rejected.rejectionCount == o.rejectionCount
            && Ticks(rejected, ticks).status != CANCELLED
  {
    NoDeadlineNoEnd(Step(o, Requested(NON_MATCHING), now), ticks);
  }

  /**
   * A rejection hands the order to the timeout: untouched, it is cancelled by the first tick after 48 hours and not
   * before.
   */
  lemma RejectionTimesOut(o: Order, rejected: int, ticks: seq<int>)
    requires o.status == VERIFICATION && o.documents >= 1 && o.rejectionCount == 0 && o.updatedAt <= rejected
             && Ordered(rejected, ticks)
    ensures var r := Review(o, false, rejected).0;
            Ticks(r, ticks).status == CANCELLED <==> Last(rejected, ticks) > rejected + 48 * HOUR
  {
    CorrectionEndsAt48Hours(Review(o, false, rejected).0, rejected, ticks);
  }

  // ---- The service ---------------------------------------------------------------------------------

  class VerificationService {
    var order: Order

    constructor (order: Order)
      ensures this.order == order
    {
      this.order := order;
    }

    /** Only from PREPARED; a document is filed and nothing else changes. */
    method SubmitVerificationDocument(owns: bool) returns (outcome: Outcome)
      modifies this
      ensures outcome == Done <==> owns && old(order).status == PREPARED
      ensures outcome == Forbidden <==> !owns
      ensures outcome != Done ==> order == old(order)
      ensures outcome == Done ==> order.status == VERIFICATION && order.documents == old(order).documents + 1
                                  && order == old(order).(status := order.status, documents := order.documents)
      ensures forall now :: order == Step(old(order), Submitted(owns), now)
      ensures InLoop(old(order)) ==> InLoop(order) && (outcome == Done ==> Decreases(old(order), order))
    {
      if !owns { return Forbidden; }
      if order.status != PREPARED { return BadStatus; }
      order := order.(status := VERIFICATION, documents := order.documents + 1);
      outcome := Done;
    }

    /**
     * An approval ends the loop and clears the deadline; a rejection is counted and gives 48 hours, the second ends the
     * loop. Inside the loop a review in a reviewable status always goes through.
     */
    method AdminReviewVerification(approve: bool, now: int) returns (outcome: Outcome)
      modifies this
      ensures (order, outcome) == Review(old(order), approve, now) && order == Step(old(order), Reviewed(approve), now)
      ensures outcome == Done
              <==> old(order).status in {VERIFICATION, CORRECTION_SUBMITTED} && old(order).documents >= 1
      ensures outcome != Done ==> order == old(order)
      ensures outcome == Done && approve ==>
                && order.status == VERIFICATION_SUCCESS && order.correctionDeadline == None
                && order.rejectionCount == old(order).rejectionCount
      ensures outcome == Done && !approve ==>
                && order.rejectionCount == old(order).rejectionCount + 1
                && (order.rejectionCount >= 2 ==> order.status == CANCELLED && order.correctionDeadline == None)
                && (order.rejectionCount == 1 ==>
                      order.status == NON_MATCHING && order.correctionDeadline == Some(now + 48 * 60 * 60 * 1000))
      ensures order == old(order).(status := order.status, correctionDeadline := order.correctionDeadline,
                                   rejectionCount := order.rejectionCount)
      ensures InLoop(old(order)) ==>
                && InLoop(order) && outcome in {Done, BadStatus}
                && (outcome == Done <==> old(order).status in {VERIFICATION, CORRECTION_SUBMITTED})
                && (outcome == Done ==> Decreases(old(order), order))
                && (outcome == Done && !approve ==>
                      (order.status == CANCELLED <==> old(order).status == CORRECTION_SUBMITTED)
                      && (order.status != CANCELLED ==> order.correctionDeadline == Some(now + 48 * HOUR)))
    {
      if order.status != VERIFICATION && order.status != CORRECTION_SUBMITTED { return BadStatus; }
      if order.documents == 0 { return NoDocument; }
      var newStatus := if approve then VERIFICATION_SUCCESS else NON_MATCHING;
      var deadline := if approve then None else Some(now + 48 * HOUR);
      var count := order.rejectionCount;
      if !approve {
        count := count + 1;
        if count >= 2 {
          newStatus := CANCELLED;
          deadline := None;
        }
      }
      order := order.(status := newStatus, correctionDeadline := deadline, rejectionCount := count);
      outcome := Done;
    }

    /** Only while a correction is awaited, whatever its deadline says; a document is filed and nothing else changes. */
    method SubmitCorrectionVerification(owns: bool) returns (outcome: Outcome)
      modifies this
      ensures outcome == Done <==> owns && old(order).status in {NON_MATCHING, CORRECTION_PERIOD}
      ensures outcome == Forbidden <==> !owns
      ensures outcome != Done ==> order == old(order)
      ensures outcome == Done ==> order.status == CORRECTION_SUBMITTED && order.documents == old(order).documents + 1
                                  && order == old(order).(status := order.status, documents := order.documents)
      ensures forall now :: order == Step(old(order), Corrected(owns), now)
      ensures InLoop(old(order)) ==> InLoop(order) && (outcome == Done ==> Decreases(old(order), order))
    {
      if !owns { return Forbidden; }
      if order.status != CORRECTION_PERIOD && order.status != NON_MATCHING { return BadStatus; }
      order := order.(status := CORRECTION_SUBMITTED, documents := order.documents + 1);
      outcome := Done;
    }
  }
}
