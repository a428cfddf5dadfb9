/**
 * The withdrawable balances of customers and shops, the wallet rows written with them, the withdrawal requests and the
 * shipping cases, under every operation that writes a customer's balance. Shops' balances also move elsewhere. Amounts
 * are fils.
 */
module WalletLedger {
  import opened Lists

  /** Whose balance: `customerBalance` of a user, or `balance` of a store. */
  datatype Holder = Customer(user: nat) | Shop(store: nat)

  datatype Method = STRIPE | BANK_TRANSFER
  datatype RequestStatus = PENDING | COMPLETED | REJECTED
  datatype Request = Request(holder: Holder, amount: int, payoutMethod: Method, status: RequestStatus)

  /** A return or dispute, and the shipping somebody has to pay for it. */
  datatype ShippingCase = ShippingCase(customer: nat, store: Option<nat>, onMerchant: bool, amount: int, paid: bool)

  datatype RowKind =
    | ORDER_PROFIT | REFERRAL_PROFIT | WITHDRAWAL(request: nat) | MANUAL_PAYOUT
    | WALLET_SHIPPING(shippingCase: nat) | STRIPE_SHIPPING | VERDICT_SHIPPING | PENALTY

  /** A wallet row; the holder gives its role. */
  datatype Row = Row(holder: Holder, isCredit: bool, kind: RowKind, amount: int, balanceAfter: int)

  /** `openings` is history: the case's number each time a case was put to unpaid. */
  datatype Wallets = Wallets(balances: map<Holder, int>, owners: map<nat, nat>, rows: seq<Row>, requests: seq<Request>,
                             cases: seq<ShippingCase>, openings: seq<nat>)

  /** What is on file for a holder at the moment of a payout, and whether a Stripe transfer goes through. */
  datatype Facts = Facts(stripeAccount: bool, transferOk: bool, bankDetails: bool)

  /** Who a manual payout is addressed to: nobody, a user with neither role nor store, or a wallet. */
  datatype Payee = Unknown | NoWallet | WalletOf(holder: Holder)

  datatype Outcome = Done | NotFound | AlreadyProcessed | Insufficient | PayoutFailed | Unauthorized | InvalidAmount

  // ---- The operations ------------------------------------------------------------------------------

  /** Changes a balance and writes the row that says so; `balanceAfter` is the balance then. */
  function Credit(w: Wallets, h: Holder, kind: RowKind, amount: int): Wallets
    requires h in w.balances
  {
    var balance := w.balances[h] + amount;
    w.(balances := w.balances[h := balance], rows := w.rows + [Row(h, true, kind, amount, balance)])
  }

  function Debit(w: Wallets, h: Holder, kind: RowKind, amount: int): Wallets
    requires h in w.balances
  {
    var balance := w.balances[h] - amount;
    w.(balances := w.balances[h := balance], rows := w.rows + [Row(h, false, kind, amount, balance)])
  }

  /** A reward; a capped-out reward of zero leaves no row. */
  function GrantReward(w: Wallets, h: Holder, kind: RowKind, amount: int): Wallets
    requires h in w.balances
  {
    if amount > 0 then Credit(w, h, kind, amount) else w.(balances := w.balances[h := w.balances[h] + amount])
  }

  function RequestWithdrawal(w: Wallets, h: Holder, amount: int, m: Method): (Wallets, Outcome) {
    if h !in w.balances then (w, NotFound)
    else if w.balances[h] < amount then (w, Insufficient)
    else (w.(requests := w.requests + [Request(h, amount, m, PENDING)]), Done)
  }

  /** A withdrawal by Stripe needs an account and a transfer, one by bank the bank details. */
  predicate PaysOut(m: Method, f: Facts) {
    match m case STRIPE => f.stripeAccount && f.transferOk case BANK_TRANSFER => f.bankDetails
  }

  function MethodUsed(r: Request, override: Option<Method>): Method {
    if override.Some? then override.value else r.payoutMethod
  }

  /** A failed payout rolls everything back. */
  function ProcessWithdrawal(w: Wallets, id: nat, approve: bool, override: Option<Method>, f: Facts)
    : (Wallets, Outcome)
  {
    if id >= |w.requests| then (w, NotFound)
    else if w.requests[id].status != PENDING then (w, AlreadyProcessed)
    else
      var r := w.requests[id];
      var m := MethodUsed(r, override);
      if !approve then (w.(requests := w.requests[id := r.(status := REJECTED)]), Done)
      else if r.holder !in w.balances then (w, NotFound)
      else if w.balances[r.holder] < r.amount then (w, Insufficient)
      else if !PaysOut(m, f) then (w, PayoutFailed)
      else
        var completed := w.requests[id := r.(status := COMPLETED, payoutMethod := m)];
        (Debit(w, r.holder, WITHDRAWAL(id), r.amount).(requests := completed), Done)
  }

  /**
   * A manual payout by bank asks for no details. One to a user without a wallet finds a balance of zero, then no
   * store.
   */
  function ManualPayout(w: Wallets, payee: Payee, amount: int, m: Method, f: Facts): (Wallets, Outcome) {
    match payee
    case Unknown => (w, NotFound)
    case NoWallet => (w, if 0 < amount then Insufficient else NotFound)
    case WalletOf(h) =>
      if h !in w.balances then (w, NotFound)
      else if w.balances[h] < amount then (w, Insufficient)
      else if m == STRIPE && !PaysOut(STRIPE, f) then (w, PayoutFailed)
      else (Debit(w, h, MANUAL_PAYOUT, amount), Done)
  }

  function OwnerOf(w: Wallets, h: Holder): Option<nat> {
    match h case Customer(u) => Some(u) case Shop(k) => if k in w.owners then Some(w.owners[k]) else None
  }

  /** Who pays the shipping of a case: its store or its customer. */
  function PayeeOf(c: ShippingCase): Option<Holder> {
    if !c.onMerchant then Some(Customer(c.customer))
    else if c.store.Some? then Some(Shop(c.store.value)) else None
  }

  function PayShipping(w: Wallets, caller: nat, id: nat): (Wallets, Outcome) {
    if id >= |w.cases| then (w, NotFound)
    else
      var c := w.cases[id];
      if c.paid then (w, AlreadyProcessed)
      else if c.amount <= 0 then (w, InvalidAmount)
      else if PayeeOf(c).None? || PayeeOf(c).value !in w.balances then (w, NotFound)
      else
        var payee := PayeeOf(c).value;
        if OwnerOf(w, payee) != Some(caller) then (w, Unauthorized)
        else if w.balances[payee] < c.amount then (w, Insufficient)
        else (Debit(w, payee, WALLET_SHIPPING(id), c.amount).(cases := w.cases[id := c.(paid := true)]), Done)
  }

  /** Shipping paid through Stripe still leaves a DEBIT row, with `balanceAfter` 0 and no change of balance. */
  function StripeShipping(w: Wallets, id: nat): Wallets
    requires id < |w.cases| && PayeeOf(w.cases[id]).Some?
  {
    var c := w.cases[id];
    w.(rows := w.rows + [Row(PayeeOf(c).value, false, STRIPE_SHIPPING, c.amount, 0)],
       cases := w.cases[id := c.(paid := true)])
  }

  /** A case as it is filed: the shipping is open, on the customer, and not yet priced. */
  function FileCase(w: Wallets, customer: nat, store: Option<nat>): Wallets {
    w.(cases := w.cases + [ShippingCase(customer, store, false, 0, false)], openings := w.openings + [|w.cases|])
  }

  datatype Fault = NO_FAULT | CUSTOMER_FAULT | MERCHANT_FAULT | OTHER_FAULT

  /** What a verdict says about shipping. It may be issued again and again on the same case. */
  datatype Ruling = Ruling(refunds: bool, fault: Fault, shippingRefund: Option<int>, roundtrip: int)

  predicate ChargesStore(r: Ruling) {
    r.refunds && r.fault == MERCHANT_FAULT && r.roundtrip > 0
  }

  /** A charge the store's balance covers settles the case; otherwise the case is settled if nothing is asked for. */
  function RuledCase(w: Wallets, c: ShippingCase, r: Ruling): ShippingCase
    requires ChargesStore(r) ==> c.store.Some? && Shop(c.store.value) in w.balances
  {
    var amount := if r.shippingRefund.Some? then r.shippingRefund.value else c.amount;
    if r.fault == NO_FAULT then c.(amount := amount)
    else
      c.(amount := amount, onMerchant := r.fault == MERCHANT_FAULT,
         paid := if ChargesStore(r) then w.balances[Shop(c.store.value)] >= r.roundtrip
                 else !(r.shippingRefund.Some? && r.shippingRefund.value > 0))
  }

  /** The shipping part of a verdict; one that has to charge a store that is not there fails. */
  function Rule(w: Wallets, id: nat, r: Ruling): (Wallets, Outcome) {
    if id >= |w.cases| then (w, NotFound)
    else
      var c := w.cases[id];
      if ChargesStore(r) && (c.store.None? || Shop(c.store.value) !in w.balances) then (w, NotFound)
      else
        var ruled := RuledCase(w, c, r);
        var charged :=
          if ChargesStore(r) then Debit(w, Shop(c.store.value), VERDICT_SHIPPING, r.roundtrip) else w;
        (charged.(cases := w.cases[id := ruled],
                  openings := if c.paid && !ruled.paid then w.openings + [id] else w.openings), Done)
  }

  /** Releases, verdicts and whatever else moves a store's balance, as far as this ledger sees it. */
  function MoveShop(w: Wallets, k: nat, change: int): Wallets
    requires Shop(k) in w.balances
  {
    w.(balances := w.balances[Shop(k) := w.balances[Shop(k)] + change])
  }

  /** Shipping paid by card moves no balance, although its row says DEBIT and shows a balance of 0. */
  lemma CardShippingWrites(w: Wallets, id: nat)
    requires id < |w.cases| && PayeeOf(w.cases[id]).Some?
    ensures var c, after := w.cases[id], StripeShipping(w, id);
            && after.balances == w.balances && after.cases == w.cases[id := c.(paid := true)]
            && |after.rows| == |w.rows| + 1 && after.rows[..|w.rows|] == w.rows
            && var row := after.rows[|w.rows|];
               && !row.isCredit && row.amount == c.amount && row.balanceAfter == 0
               && (c.onMerchant ==> c.store.Some? && row.holder == Shop(c.store.value))
               && (!c.onMerchant ==> row.holder == Customer(c.customer))
  {
  }

  /** Past the checks of limits, freezes and details a request is filed if the balance covers it; no money moves. */
  lemma RequestFiledIff(w: Wallets, h: Holder, amount: int, m: Method)
    ensures var (after, outcome) := RequestWithdrawal(w, h, amount, m);
            && (outcome == Done <==> h in w.balances && w.balances[h] >= amount)
            && after.requests == w.requests + (if outcome == Done then [Request(h, amount, m, PENDING)] else [])
            && after == w.(requests := after.requests)
  {
  }

  // ---- Runs ----------------------------------------------------------------------------------------

  datatype Action =
    | OrderReward(user: nat, amount: int)
    | ReferralReward(user: nat, amount: int)
    | WithdrawalRequested(holder: Holder, amount: int, payoutMethod: Method)
    | WithdrawalProcessed(id: nat, approve: bool, override: Option<Method>, facts: Facts)
    | PayoutSent(payee: Payee, amount: int, payoutMethod: Method, facts: Facts)
    | ShippingDeducted(caller: nat, id: nat)
    | ShippingPaidByCard(id: nat)
    | Fined(holder: Holder, amount: int)
    | ShopMoved(store: nat, change: int)
    | CaseFiled(customer: nat, caseStore: Option<nat>)
    | CaseRuled(id: nat, ruling: Ruling)

  /** Rewards are computed, not entered, and never negative; everything else takes any amount. */
  predicate Enabled(w: Wallets, a: Action) {
    match a
    case OrderReward(u, amount) => Customer(u) in w.balances && amount >= 0
    case ReferralReward(u, amount) => Customer(u) in w.balances && amount > 0
    case ShippingPaidByCard(id) => id < |w.cases| && PayeeOf(w.cases[id]).Some?
    case Fined(h, amount) => h in w.balances && amount > 0
    case ShopMoved(k, _) => Shop(k) in w.balances
    case _ => true
  }

  function Step(w: Wallets, a: Action): Wallets
    requires Enabled(w, a)
  {
    match a
    case OrderReward(u, amount) => GrantReward(w, Customer(u), ORDER_PROFIT, amount)
    case ReferralReward(u, amount) => Credit(w, Customer(u), REFERRAL_PROFIT, amount)
    case WithdrawalRequested(h, amount, m) => RequestWithdrawal(w, h, amount, m).0
    case WithdrawalProcessed(id, approve, override, f) => ProcessWithdrawal(w, id, approve, override, f).0
    case PayoutSent(payee, amount, m, f) => ManualPayout(w, payee, amount, m, f).0
    case ShippingDeducted(caller, id) => PayShipping(w, caller, id).0
    case ShippingPaidByCard(id) => StripeShipping(w, id)
    case Fined(h, amount) => Debit(w, h, PENALTY, amount)
    case ShopMoved(k, change) => MoveShop(w, k, change)
    case CaseFiled(customer, store) => FileCase(w, customer, store)
    case CaseRuled(id, ruling) => Rule(w, id, ruling).0
  }

  predicate Follows(before: Wallets, a: Action, after: Wallets) {
    Enabled(before, a) && after == Step(before, a)
  }

  predicate IsRun(states: seq<Wallets>, actions: seq<Action>) {
    && |states| == |actions| + 1
    && forall i :: 0 <= i < |actions| ==> Follows(states[i], actions[i], states[i + 1])
  }

  // ---- The customers' ledger -------------------------------------------------------------------------

  /** What a row does to its holder's balance. */
  function Effect(h: Holder): Row -> int {
    (r: Row) => if r.holder != h || r.kind == STRIPE_SHIPPING then 0 else if r.isCredit then r.amount else -r.amount
  }

  /**
   * Each customer's balance is its start plus the effect of its rows, and each row shows the balance at its place in
   * the list.
   */
  ghost predicate Ledgered(start: map<Holder, int>, w: Wallets) {
    && w.balances.Keys == start.Keys
    && (forall h :: h in start && h.Customer? ==> w.balances[h] == start[h] + Sum(w.rows, Effect(h)))
    && (forall i :: 0 <= i < |w.rows| && w.rows[i].holder.Customer? ==> Running(start, w.rows, i))
  }

  ghost predicate Running(start: map<Holder, int>, rows: seq<Row>, i: nat)
    requires i < |rows|
  {
    rows[i].kind != STRIPE_SHIPPING ==>
      rows[i].holder in start && rows[i].balanceAfter == start[rows[i].holder]
          + Sum(rows[..i + 1], Effect(rows[i].holder))
  }

  lemma AppendLedgered(start: map<Holder, int>, w: Wallets, row: Row, after: Wallets)
    requires Ledgered(start, w) && after.rows == w.rows + [row] && after.balances.Keys == start.Keys
    requires forall h :: h in start && h.Customer? ==> after.balances[h] == w.balances[h] + Effect(h)(row)
    requires row.kind != STRIPE_SHIPPING ==> row.holder in start && row.balanceAfter == after.balances[row.holder]
    ensures Ledgered(start, after)
  {
    forall h | h in start && h.Customer? ensures after.balances[h] == start[h] + Sum(after.rows, Effect(h)) {
      SumAppend(w.rows, row, Effect(h));
    }
    forall i | 0 <= i < |after.rows| && after.rows[i].holder.Customer? ensures Running(start, after.rows, i) {
      if i < |w.rows| {
        assert Running(start, w.rows, i);
        assert after.rows[..i + 1] == w.rows[..i + 1];
      } else {
        assert after.rows[..i + 1] == after.rows;
      }
    }
  }

  lemma CreditLedgered(start: map<Holder, int>, w: Wallets, h: Holder, kind: RowKind, amount: int)
    requires Ledgered(start, w) && h in w.balances && kind != STRIPE_SHIPPING
    ensures Ledgered(start, Credit(w, h, kind, amount))
  {
    AppendLedgered(start, w, Row(h, true, kind, amount, w.balances[h] + amount), Credit(w, h, kind, amount));
  }

  lemma DebitLedgered(start: map<Holder, int>, w: Wallets, h: Holder, kind: RowKind, amount: int)
    requires Ledgered(start, w) && h in w.balances && kind != STRIPE_SHIPPING
    ensures Ledgered(start, Debit(w, h, kind, amount))
  {
    AppendLedgered(start, w, Row(h, false, kind, amount, w.balances[h] - amount), Debit(w, h, kind, amount));
  }

  lemma WithdrawalLedgered(start: map<Holder, int>, w: Wallets, id: nat, approve: bool, override: Option<Method>,
                           f: Facts)
    requires Ledgered(start, w)
    ensures Ledgered(start, ProcessWithdrawal(w, id, approve, override, f).0)
  {
    if id < |w.requests| && w.requests[id].holder in w.balances {
      DebitLedgered(start, w, w.requests[id].holder, WITHDRAWAL(id), w.requests[id].amount);
    }
  }

  lemma ShippingLedgered(start: map<Holder, int>, w: Wallets, caller: nat, id: nat)
    requires Ledgered(start, w)
    ensures Ledgered(start, PayShipping(w, caller, id).0)
  {
    if id < |w.cases| && PayeeOf(w.cases[id]).Some? && PayeeOf(w.cases[id]).value in w.balances {
      DebitLedgered(start, w, PayeeOf(w.cases[id]).value, WALLET_SHIPPING(id), w.cases[id].amount);
    }
  }

  lemma StripeLedgered(start: map<Holder, int>, w: Wallets, id: nat)
    requires Ledgered(start, w) && id < |w.cases| && PayeeOf(w.cases[id]).Some?
    ensures Ledgered(start, StripeShipping(w, id))
  {
    AppendLedgered(start, w, Row(PayeeOf(w.cases[id]).value, false, STRIPE_SHIPPING, w.cases[id].amount, 0),
                   StripeShipping(w, id));
  }

  lemma RuleLedgered(start: map<Holder, int>, w: Wallets, id: nat, r: Ruling)
    requires Ledgered(start, w)
    ensures Ledgered(start, Rule(w, id, r).0)
  {
    if Rule(w, id, r).1 == Done && ChargesStore(r) {
      DebitLedgered(start, w, Shop(w.cases[id].store.value), VERDICT_SHIPPING, r.roundtrip);
    }
  }

  lemma StepLedgered(start: map<Holder, int>, w: Wallets, a: Action)
    requires Ledgered(start, w) && Enabled(w, a)
    ensures Ledgered(start, Step(w, a))
  {
    match a
    case OrderReward(u, amount) => CreditLedgered(start, w, Customer(u), ORDER_PROFIT, amount);
    case ReferralReward(u, amount) => CreditLedgered(start, w, Customer(u), REFERRAL_PROFIT, amount);
    case WithdrawalRequested(_, _, _) =>
    case WithdrawalProcessed(id, approve, override, f) => WithdrawalLedgered(start, w, id, approve, override, f);
    case PayoutSent(payee, amount, _, _) =>
      if payee.WalletOf? && payee.holder in w.balances { DebitLedgered(start, w, payee.holder, MANUAL_PAYOUT, amount); }
    case ShippingDeducted(caller, id) => ShippingLedgered(start, w, caller, id);
    case ShippingPaidByCard(id) => StripeLedgered(start, w, id);
    case Fined(h, amount) => DebitLedgered(start, w, h, PENALTY, amount);
    case ShopMoved(_, _) =>
    case CaseFiled(_, _) =>
    case CaseRuled(id, ruling) => RuleLedgered(start, w, id, ruling);
  }

  // ---- How often requests and cases are debited ------------------------------------------------------

  function OfKind(kind: RowKind): Row -> int {
    (r: Row) => if r.kind == kind then 1 else 0
  }

  function Is(id: nat): nat -> int {
    (x: nat) => if x == id then 1 else 0
  }

  function Debits(w: Wallets, id: nat): int {
    Sum(w.rows, OfKind(WALLET_SHIPPING(id)))
  }

  predicate Open(w: Wallets, id: nat) {
    id < |w.cases| && !w.cases[id].paid
  }

  /** One debit row per completed request and none for any other. */
  ghost predicate RequestsDebitedOnce(w: Wallets) {
    forall id: nat ::
      Sum(w.rows, OfKind(WITHDRAWAL(id))) == if id < |w.requests| && w.requests[id].status == COMPLETED then 1 else 0
  }

  lemma AppendCounts(rows: seq<Row>, row: Row)
    ensures forall kind: RowKind ::
              Sum(rows + [row], OfKind(kind)) == Sum(rows, OfKind(kind)) + if row.kind == kind then 1 else 0
  {
    forall kind: RowKind
      ensures Sum(rows + [row], OfKind(kind)) == Sum(rows, OfKind(kind)) + if row.kind == kind then 1 else 0
    {
      SumAppend(rows, row, OfKind(kind));
    }
  }

  /** What a step does to the rows: at most one is appended. */
  lemma StepRows(w: Wallets, a: Action)
    requires Enabled(w, a)
    ensures Step(w, a).rows == w.rows
            || exists row :: Step(w, a).rows == w.rows + [row] && (row.kind.WITHDRAWAL? ==> a.WithdrawalProcessed?)
                             && (row.kind.WALLET_SHIPPING? ==> a.ShippingDeducted?)
  {
    var after := Step(w, a);
    if |after.rows| > |w.rows| {
      var row := after.rows[|w.rows|];
      assert after.rows == w.rows + [row];
    }
  }

  lemma WithdrawalDebitedOnce(w: Wallets, id: nat, approve: bool, override: Option<Method>, f: Facts)
    requires RequestsDebitedOnce(w)
    ensures RequestsDebitedOnce(ProcessWithdrawal(w, id, approve, override, f).0)
  {
    var after := ProcessWithdrawal(w, id, approve, override, f).0;
    if after.rows != w.rows {
      AppendCounts(w.rows, after.rows[|w.rows|]);
      assert Sum(w.rows, OfKind(WITHDRAWAL(id))) == 0;
    }
  }

  lemma StepRequests(w: Wallets, a: Action)
    requires Enabled(w, a) && !a.WithdrawalProcessed?
    ensures SameCompleted(w, Step(w, a))
  {
  }

  ghost predicate SameCompleted(w: Wallets, after: Wallets) {
    && |w.requests| <= |after.requests|
    && (forall id :: 0 <= id < |w.requests| ==> after.requests[id] == w.requests[id])
    && (forall id :: |w.requests| <= id < |after.requests| ==> after.requests[id].status == PENDING)
  }

  lemma OtherRequestsDebited(w: Wallets, after: Wallets)
    requires RequestsDebitedOnce(w) && SameCompleted(w, after)
    requires after.rows == w.rows || exists row :: after.rows == w.rows + [row] && !row.kind.WITHDRAWAL?
    ensures RequestsDebitedOnce(after)
  {
    if after.rows != w.rows {
      var row :| after.rows == w.rows + [row] && !row.kind.WITHDRAWAL?;
      AppendCounts(w.rows, row);
    }
  }

  lemma StepRequestsDebitedOnce(w: Wallets, a: Action)
    requires RequestsDebitedOnce(w) && Enabled(w, a)
    ensures RequestsDebitedOnce(Step(w, a))
  {
    if a.WithdrawalProcessed? {
      WithdrawalDebitedOnce(w, a.id, a.approve, a.override, a.facts);
    } else {
      StepRows(w, a);
      StepRequests(w, a);
      OtherRequestsDebited(w, Step(w, a));
    }
  }

  /** How many openings of a case have been closed by something else than a wallet debit. */
  function Slack(w: Wallets, id: nat): int {
    Sum(w.openings, Is(id)) - Debits(w, id) - if Open(w, id) then 1 else 0
  }

  lemma PaySlack(w: Wallets, caller: nat, paid: nat, id: nat)
    ensures Slack(PayShipping(w, caller, paid).0, id) == Slack(w, id)
  {
    var after := PayShipping(w, caller, paid).0;
    if after.rows != w.rows {
      var payee, c := PayeeOf(w.cases[paid]).value, w.cases[paid];
      SumAppend(w.rows, Row(payee, false, WALLET_SHIPPING(paid), c.amount, w.balances[payee] - c.amount),
                OfKind(WALLET_SHIPPING(id)));
    }
  }

  lemma FileSlack(w: Wallets, customer: nat, store: Option<nat>, id: nat)
    ensures Slack(FileCase(w, customer, store), id) == Slack(w, id)
  {
    var n: nat := |w.cases|;
    var after := FileCase(w, customer, store);
    SumAppend(w.openings, n, Is(id));
    assert Sum(after.openings, Is(id)) == Sum(w.openings, Is(id)) + if n == id then 1 else 0;
    assert Open(after, id) <==> Open(w, id) || n == id;
  }

  lemma RuleSlack(w: Wallets, ruled: nat, r: Ruling, id: nat)
    ensures Slack(Rule(w, ruled, r).0, id) >= Slack(w, id)
  {
    if Rule(w, ruled, r).1 == Done {
      var c := w.cases[ruled];
      SumAppend(w.openings, ruled, Is(id));
      if ChargesStore(r) {
        var k := Shop(c.store.value);
        SumAppend(w.rows, Row(k, false, VERDICT_SHIPPING, r.roundtrip, w.balances[k] - r.roundtrip),
                  OfKind(WALLET_SHIPPING(id)));
      }
    }
  }

  /** Nothing but those actions writes a case, its openings or a wallet debit of it; a card payment only closes it. */
  lemma OtherSlack(w: Wallets, a: Action, id: nat)
    requires Enabled(w, a) && !a.ShippingDeducted? && !a.CaseFiled? && !a.CaseRuled?
    ensures Slack(Step(w, a), id) >= Slack(w, id)
  {
    StepRows(w, a);
    if Step(w, a).rows != w.rows {
      var row :| Step(w, a).rows == w.rows + [row] && !row.kind.WALLET_SHIPPING?;
      SumAppend(w.rows, row, OfKind(WALLET_SHIPPING(id)));
    }
    assert Step(w, a).openings == w.openings && (Open(Step(w, a), id) ==> Open(w, id));
  }

  lemma StepSlack(w: Wallets, a: Action, id: nat)
    requires Enabled(w, a)
    ensures Slack(Step(w, a), id) >= Slack(w, id)
  {
    match a
    case ShippingDeducted(caller, paid) => PaySlack(w, caller, paid, id);
    case CaseFiled(customer, store) => FileSlack(w, customer, store, id);
    case CaseRuled(ruled, ruling) => RuleSlack(w, ruled, ruling, id);
    case _ => OtherSlack(w, a, id);
  }

  /** Over any run, from empty rows and cases: the wallet debits of a case never exceed the times it was opened. */
  lemma {:induction false} DebitsWithinOpenings(states: seq<Wallets>, actions: seq<Action>, id: nat)
    requires IsRun(states, actions) && states[0].rows == [] && states[0].cases == [] && states[0].openings == []
    ensures var w := states[|actions|];
            Debits(w, id) + (if Open(w, id) then 1 else 0) <= Sum(w.openings, Is(id))
  {
    SlackGrows(states, actions, id);
  }

  lemma {:induction false} SlackGrows(states: seq<Wallets>, actions: seq<Action>, id: nat)
    requires IsRun(states, actions)
    ensures Slack(states[|actions|], id) >= Slack(states[0], id)
  {
    if actions != [] {
      var n := |actions| - 1;
      SlackGrows(states[..n + 1], actions[..n], id);
      assert Follows(states[n], actions[n], states[n + 1]);
      StepSlack(states[n], actions[n], id);
    }
  }

  lemma RuleOpens(w: Wallets, ruled: nat, r: Ruling, id: nat)
    ensures var after := Rule(w, ruled, r).0;
            Sum(after.openings, Is(id)) == Sum(w.openings, Is(id)) + if Open(after, id) && !Open(w, id) then 1 else 0
  {
    SumAppend(w.openings, ruled, Is(id));
  }

  lemma FileOpens(w: Wallets, customer: nat, store: Option<nat>, id: nat)
    ensures var after := FileCase(w, customer, store);
            Sum(after.openings, Is(id)) == Sum(w.openings, Is(id)) + if Open(after, id) && !Open(w, id) then 1 else 0
  {
    var n: nat := |w.cases|;
    SumAppend(w.openings, n, Is(id));
  }

  lemma OtherOpens(w: Wallets, a: Action, id: nat)
    requires Enabled(w, a) && !a.CaseFiled? && !a.CaseRuled?
    ensures Step(w, a).openings == w.openings && (Open(Step(w, a), id) ==> Open(w, id))
  {
  }

  /** The history counts an opening of a case exactly when an operation leaves it unpaid that was not before. */
  lemma StepOpens(w: Wallets, a: Action, id: nat)
    requires Enabled(w, a)
    ensures var after := Step(w, a);
            Sum(after.openings, Is(id)) == Sum(w.openings, Is(id)) + if Open(after, id) && !Open(w, id) then 1 else 0
  {
    if a.CaseRuled? {
      RuleOpens(w, a.id, a.ruling, id);
    } else if a.CaseFiled? {
      FileOpens(w, a.customer, a.caseStore, id);
    } else {
      OtherOpens(w, a, id);
    }
  }

  // ---- When a case is debited again ------------------------------------------------------------------

  /** The step debits the case from a wallet. */
  predicate DebitsCase(w: Wallets, a: Action, id: nat) {
    a.ShippingDeducted? && a.id == id && PayShipping(w, a.caller, id).1 == Done
  }

  predicate Reopens(w: Wallets, a: Action, id: nat) {
    a.CaseRuled? && a.id == id && id < |w.cases| && w.cases[id].paid && Open(Rule(w, id, a.ruling).0, id)
  }

  lemma OnlyVerdictsReopen(w: Wallets, a: Action, id: nat)
    requires Enabled(w, a) && id < |w.cases| && w.cases[id].paid
    ensures id < |Step(w, a).cases|
    ensures Open(Step(w, a), id) <==> Reopens(w, a, id)
  {
  }

  lemma {:induction false} StaysClosed(states: seq<Wallets>, actions: seq<Action>, i: nat, j: nat, id: nat)
    requires IsRun(states, actions) && i <= j < |states| && id < |states[i].cases| && states[i].cases[id].paid
    requires forall k :: i <= k < j ==> !Reopens(states[k], actions[k], id)
    ensures id < |states[j].cases| && states[j].cases[id].paid
    decreases j
  {
    if i < j {
      StaysClosed(states, actions, i, j - 1, id);
      assert Follows(states[j - 1], actions[j - 1], states[j - 1 + 1]);
      OnlyVerdictsReopen(states[j - 1], actions[j - 1], id);
    }
  }

  /** Between two wallet debits of a case a verdict put the paid case back to unpaid. */
  lemma ReopenedBetween(states: seq<Wallets>, actions: seq<Action>, i: nat, j: nat, id: nat)
    requires IsRun(states, actions) && i < j < |actions|
    requires DebitsCase(states[i], actions[i], id) && DebitsCase(states[j], actions[j], id)
    ensures exists k :: i < k < j && Reopens(states[k], actions[k], id)
  {
    assert Follows(states[i], actions[i], states[i + 1]);
    if forall k :: i < k < j ==> !Reopens(states[k], actions[k], id) {
      StaysClosed(states, actions, i + 1, j, id);
    }
  }

  /** A verdict with a fault party, some shipping to refund and no charge of its own reopens any paid case. */
  lemma ReopensIff(w: Wallets, id: nat, r: Ruling)
    requires id < |w.cases| && w.cases[id].paid && !ChargesStore(r)
    ensures Reopens(w, CaseRuled(id, r), id)
            <==> r.fault != NO_FAULT && r.shippingRefund.Some? && r.shippingRefund.value > 0
  {
  }

  /** And then whoever pays for it can pay again: two wallet debits of the one case. */
  lemma DebitedAgain(w: Wallets, id: nat, amount: int) returns (states: seq<Wallets>, actions: seq<Action>)
    requires id < |w.cases| && !w.cases[id].paid && !w.cases[id].onMerchant && w.cases[id].amount == amount > 0
    requires Customer(w.cases[id].customer) in w.balances && w.balances[Customer(w.cases[id].customer)] >= 2 * amount
    ensures IsRun(states, actions) && |actions| == 3 && states[0] == w
    ensures DebitsCase(states[0], actions[0], id) && Reopens(states[1], actions[1], id)
            && DebitsCase(states[2], actions[2], id)
  {
    var u := w.cases[id].customer;
    var pay, rule := ShippingDeducted(u, id), CaseRuled(id, Ruling(false, CUSTOMER_FAULT, Some(amount), 0));
    var paid := Step(w, pay);
    var ruled := Step(paid, rule);
    assert paid.cases[id] == w.cases[id].(paid := true);
    assert ruled.cases[id] == w.cases[id];
    states, actions := [w, paid, ruled, Step(ruled, pay)], [pay, rule, pay];
  }

  // ---- Never below zero ------------------------------------------------------------------------------

  predicate Solvent(w: Wallets) {
    forall h :: h in w.balances ==> w.balances[h] >= 0
  }

  /** A fine, a verdict's charge, or a move made elsewhere that the balance covers; the rest looks at the balance. */
  predicate Covered(w: Wallets, a: Action) {
    match a
    case Fined(h, amount) => h in w.balances && w.balances[h] >= amount
    case ShopMoved(k, change) => Shop(k) in w.balances && w.balances[Shop(k)] + change >= 0
    case CaseRuled(id, r) =>
      Rule(w, id, r).1 == Done && ChargesStore(r) ==> w.balances[Shop(w.cases[id].store.value)] >= r.roundtrip
    case _ => true
  }

  lemma RuleSolvent(w: Wallets, id: nat, r: Ruling)
    requires Solvent(w)
    ensures Solvent(Rule(w, id, r).0) <==> Covered(w, CaseRuled(id, r))
  {
    if Rule(w, id, r).1 == Done && ChargesStore(r) {
      var k := Shop(w.cases[id].store.value);
      assert Rule(w, id, r).0.balances[k] == w.balances[k] - r.roundtrip;
    }
  }

  lemma StepSolvent(w: Wallets, a: Action)
    requires Solvent(w) && Enabled(w, a)
    ensures Solvent(Step(w, a)) <==> Covered(w, a)
  {
    if a.Fined? { assert Step(w, a).balances[a.holder] == w.balances[a.holder] - a.amount; }
    if a.CaseRuled? { RuleSolvent(w, a.id, a.ruling); }
    if a.ShopMoved? { assert Step(w, a).balances[Shop(a.store)] == w.balances[Shop(a.store)] + a.change; }
  }

  /** Every state of a run is solvent exactly when each fine, verdict's charge and outside move is covered when made. */
  lemma RunSolventIff(states: seq<Wallets>, actions: seq<Action>)
    requires IsRun(states, actions) && Solvent(states[0])
    ensures (forall i :: 0 <= i < |states| ==> Solvent(states[i]))
            <==> forall i :: 0 <= i < |actions| ==> Covered(states[i], actions[i])
  {
    if forall i :: 0 <= i < |states| ==> Solvent(states[i]) {
      forall i | 0 <= i < |actions| ensures Covered(states[i], actions[i]) {
        assert Solvent(states[i]) && Solvent(states[i + 1]) && Follows(states[i], actions[i], states[i + 1]);
        StepSolvent(states[i], actions[i]);
      }
    }
    if forall i :: 0 <= i < |actions| ==> Covered(states[i], actions[i]) { CoveredRunSolvent(states, actions); }
  }

  lemma {:induction false} CoveredRunSolvent(states: seq<Wallets>, actions: seq<Action>)
    requires IsRun(states, actions) && Solvent(states[0])
    requires forall i :: 0 <= i < |actions| ==> Covered(states[i], actions[i])
    ensures forall i :: 0 <= i < |states| ==> Solvent(states[i])
  {
    if actions != [] {
      var n := |actions| - 1;
      CoveredRunSolvent(states[..n + 1], actions[..n]);
      assert states[..n + 1][n] == states[n] && Follows(states[n], actions[n], states[n + 1]);
      StepSolvent(states[n], actions[n]);
      forall i | 0 <= i < |states| ensures Solvent(states[i]) { if i <= n { assert states[..n + 1][i] == states[i]; } }
    }
  }

  /**
   * From empty rows, whatever the mix and order of operations: the customers' ledger, and no request or case debited
   * twice.
   */
  lemma {:induction false} RunLedger(states: seq<Wallets>, actions: seq<Action>)
    requires IsRun(states, actions) && states[0].rows == [] && states[0].requests == []
    ensures Ledgered(states[0].balances, states[|actions|]) && RequestsDebitedOnce(states[|actions|])
  {
    if actions != [] {
      var n := |actions| - 1;
      RunLedger(states[..n + 1], actions[..n]);
      assert Follows(states[n], actions[n], states[n + 1]);
      StepLedgered(states[0].balances, states[n], actions[n]);
      StepRequestsDebitedOnce(states[n], actions[n]);
    }
  }

  // ---- The services --------------------------------------------------------------------------------

  /** One balance falls by the amount, under one DEBIT row that shows what is left. */
  ghost predicate Debited(before: Wallets, after: Wallets, h: Holder, kind: RowKind, amount: int) {
    && h in before.balances && h in after.balances && after.balances[h] == before.balances[h] - amount
    && after.balances - {h} == before.balances - {h}
    && after.rows == before.rows + [Row(h, false, kind, amount, after.balances[h])]
    && after.owners == before.owners
  }

  class WalletService {
    var wallets: Wallets

    constructor (wallets: Wallets)
      ensures this.wallets == wallets
    {
      this.wallets := wallets;
    }

    /** Also the referral reward, which is always positive. */
    method CreditReward(user: nat, kind: RowKind, amount: int)
      requires Customer(user) in wallets.balances
      modifies this
      ensures wallets == GrantReward(old(wallets), Customer(user), kind, amount)
      ensures var h := Customer(user);
              && h in wallets.balances && wallets.balances[h] == old(wallets).balances[h] + amount
              && wallets.rows == old(wallets).rows
                                 + (if amount > 0 then [Row(h, true, kind, amount, wallets.balances[h])] else [])
    {
      var tx := wallets;
      tx := tx.(balances := tx.balances[Customer(user) := tx.balances[Customer(user)] + amount]);
      if amount > 0 {
        tx := tx.(rows := tx.rows + [Row(Customer(user), true, kind, amount, tx.balances[Customer(user)])]);
      }
      wallets := tx;
    }

    /**
     * A rejection marks the pending request and nothing else. An approval needs the balance and a payout by the method
     * used, the admin's or else the request's, which is then stored; everything else leaves the wallets alone.
     */
    method ProcessWithdrawalRequest(id: nat, approve: bool, override: Option<Method>, facts: Facts)
      returns (outcome: Outcome)
      modifies this
      ensures (wallets, outcome) == ProcessWithdrawal(old(wallets), id, approve, override, facts)
      ensures outcome == Done
              <==> && id < |old(wallets).requests|
                   && var r := old(wallets).requests[id];
                      && r.status == PENDING
                      && (approve ==>
                            && r.holder in old(wallets).balances && old(wallets).balances[r.holder] >= r.amount
                            && (if override == Some(STRIPE) || (override == None && r.payoutMethod == STRIPE)
                                then facts.stripeAccount && facts.transferOk else facts.bankDetails))
      ensures outcome != Done ==> wallets == old(wallets)
      ensures outcome == Done ==>
                && id < |wallets.requests| && wallets.requests == old(wallets).requests[id := wallets.requests[id]]
                && var r, after := old(wallets).requests[id], wallets.requests[id];
                   && after.holder == r.holder && after.amount == r.amount
                   && (!approve ==> after.status == REJECTED && after.payoutMethod == r.payoutMethod
                                    && wallets == old(wallets).(requests := wallets.requests))
                   && (approve ==>
                         && after.status == COMPLETED
                         && (override.None? ==> after.payoutMethod == r.payoutMethod)
                         && (override.Some? ==> after.payoutMethod == override.value)
                         && Debited(old(wallets), wallets, r.holder, WITHDRAWAL(id), r.amount)
                         && wallets.cases == old(wallets).cases && wallets.openings == old(wallets).openings)
    {
      if id >= |wallets.requests| { return NotFound; }
      var request := wallets.requests[id];
      if request.status != PENDING { return AlreadyProcessed; }
      if !approve {
        wallets := wallets.(requests := wallets.requests[id := request.(status := REJECTED)]);
        return Done;
      }
      var holder, methodToUse := request.holder, if override.Some? then override.value else request.payoutMethod;
      if holder !in wallets.balances { return NotFound; }
      var tx := wallets;
      var balance := tx.balances[holder];
      if balance < request.amount { return Insufficient; }
      tx := tx.(balances := tx.balances[holder := balance - request.amount]);
      tx := tx.(rows := tx.rows + [Row(holder, false, WITHDRAWAL(id), request.amount, balance - request.amount)]);
      if methodToUse == STRIPE {
        if !facts.stripeAccount || !facts.transferOk { return PayoutFailed; }
      } else {
        if !facts.bankDetails { return PayoutFailed; }
      }
      tx := tx.(requests := tx.requests[id := request.(status := COMPLETED, payoutMethod := methodToUse)]);
      wallets := tx;
      outcome := Done;
    }

    method SendManualPayout(payee: Payee, amount: int, payoutMethod: Method, facts: Facts) returns (outcome: Outcome)
      modifies this
      ensures (wallets, outcome) == ManualPayout(old(wallets), payee, amount, payoutMethod, facts)
      ensures outcome == Done
              <==> && payee.WalletOf? && payee.holder in old(wallets).balances
                   && old(wallets).balances[payee.holder] >= amount
                   && (payoutMethod == STRIPE ==> facts.stripeAccount && facts.transferOk)
      ensures outcome != Done ==> wallets == old(wallets)
      ensures outcome == Done ==>
                && Debited(old(wallets), wallets, payee.holder, MANUAL_PAYOUT, amount)
                && wallets == old(wallets).(balances := wallets.balances, rows := wallets.rows)
    {
      if payee.Unknown? { return NotFound; }
      if payee.WalletOf? && payee.holder !in wallets.balances { return NotFound; }
      var balance := if payee.WalletOf? then wallets.balances[payee.holder] else 0;
      if balance < amount { return Insufficient; }
      if payee.NoWallet? { return NotFound; }
      var tx := wallets;
      tx := tx.(balances := tx.balances[payee.holder := tx.balances[payee.holder] - amount]);
      tx := tx.(rows := tx.rows + [Row(payee.holder, false, MANUAL_PAYOUT, amount, balance - amount)]);
      if payoutMethod == STRIPE && (!facts.stripeAccount || !facts.transferOk) { return PayoutFailed; }
      wallets := tx;
      outcome := Done;
    }

    method DeductShippingFromBalance(caller: nat, id: nat) returns (outcome: Outcome)
      modifies this
      ensures (wallets, outcome) == PayShipping(old(wallets), caller, id)
      ensures outcome == Done
              <==> && id < |old(wallets).cases|
                   && var c := old(wallets).cases[id];
                      && !c.paid && c.amount > 0
                      && (c.onMerchant ==>
                            && c.store.Some? && Shop(c.store.value) in old(wallets).balances
                            && c.store.value in old(wallets).owners && old(wallets).owners[c.store.value] == caller
                            && old(wallets).balances[Shop(c.store.value)] >= c.amount)
                      && (!c.onMerchant ==>
                            && c.customer == caller && Customer(c.customer) in old(wallets).balances
                            && old(wallets).balances[Customer(c.customer)] >= c.amount)
      ensures outcome != Done ==> wallets == old(wallets)
      ensures outcome == Done ==>
                var c := old(wallets).cases[id];
                && (c.onMerchant ==> c.store.Some? && Debited(old(wallets), wallets, Shop(c.store.value),
                                                              WALLET_SHIPPING(id), c.amount))
                && (!c.onMerchant ==>
                      Debited(old(wallets), wallets, Customer(c.customer), WALLET_SHIPPING(id), c.amount))
                && wallets.cases == old(wallets).cases[id := c.(paid := true)]
                && wallets.requests == old(wallets).requests && wallets.openings == old(wallets).openings
    {
      if id >= |wallets.cases| { return NotFound; }
      var record := wallets.cases[id];
      if record.paid { return AlreadyProcessed; }
      if record.amount <= 0 { return InvalidAmount; }
      if record.onMerchant && record.store.None? { return NotFound; }
      var payee := if record.onMerchant then Shop(record.store.value) else Customer(record.customer);
      if payee !in wallets.balances { return NotFound; }
      if payee.Shop? {
        if payee.store !in wallets.owners || wallets.owners[payee.store] != caller { return Unauthorized; }
      } else {
        if payee.user != caller { return Unauthorized; }
      }
      var tx := wallets;
      var balance := tx.balances[payee];
      if balance < record.amount { return Insufficient; }
      tx := tx.(balances := tx.balances[payee := balance - record.amount]);
      tx := tx.(rows := tx.rows + [Row(payee, false, WALLET_SHIPPING(id), record.amount, balance - record.amount)]);
      tx := tx.(cases := tx.cases[id := record.(paid := true)]);
      wallets := tx;
      outcome := Done;
    }

    /**
     * The shipping part of a verdict. Without a fault only the amount is written; otherwise the fault says who pays,
     * and the case is settled if the store's balance covers its charge or, without a charge, nothing is asked for.
     */
    method IssueVerdict(id: nat, ruling: Ruling) returns (outcome: Outcome)
      modifies this
      ensures (wallets, outcome) == Rule(old(wallets), id, ruling)
      ensures outcome == Done
              <==> && id < |old(wallets).cases|
                   && (ruling.refunds && ruling.fault == MERCHANT_FAULT && ruling.roundtrip > 0 ==>
                         && old(wallets).cases[id].store.Some?
                         && Shop(old(wallets).cases[id].store.value) in old(wallets).balances)
      ensures outcome != Done ==> wallets == old(wallets)
      ensures outcome == Done ==>
                && id < |old(wallets).cases| && |wallets.cases| == |old(wallets).cases|
                && (forall i :: 0 <= i < |wallets.cases| && i != id ==> wallets.cases[i] == old(wallets).cases[i])
                && wallets.requests == old(wallets).requests && wallets.owners == old(wallets).owners
      ensures outcome == Done ==>
                var c, after := old(wallets).cases[id], wallets.cases[id];
                var charged := ruling.refunds && ruling.fault == MERCHANT_FAULT && ruling.roundtrip > 0;
                && after.customer == c.customer && after.store == c.store
                && (ruling.shippingRefund.Some? ==> after.amount == ruling.shippingRefund.value)
                && (ruling.shippingRefund.None? ==> after.amount == c.amount)
                && (ruling.fault == NO_FAULT ==> after.onMerchant == c.onMerchant && after.paid == c.paid)
                && (ruling.fault != NO_FAULT ==> (after.onMerchant <==> ruling.fault == MERCHANT_FAULT))
                && (charged ==>
                      && c.store.Some? && Shop(c.store.value) in old(wallets).balances
                      && (after.paid <==> old(wallets).balances[Shop(c.store.value)] >= ruling.roundtrip)
                      && Debited(old(wallets), wallets, Shop(c.store.value), VERDICT_SHIPPING, ruling.roundtrip))
                && (!charged ==> wallets.balances == old(wallets).balances && wallets.rows == old(wallets).rows)
                && (!charged && ruling.fault != NO_FAULT ==>
                      (after.paid <==> ruling.shippingRefund.None? || ruling.shippingRefund.value <= 0))
    {
      if id >= |wallets.cases| { return NotFound; }
      var record := wallets.cases[id];
      var tx, updated, decided := wallets, record, false;
      if ruling.shippingRefund.Some? { updated := updated.(amount := ruling.shippingRefund.value); }
      if ruling.refunds && ruling.roundtrip > 0 && ruling.fault == MERCHANT_FAULT {
        if record.store.None? || Shop(record.store.value) !in tx.balances { return NotFound; }
        var k := Shop(record.store.value);
        var balance := tx.balances[k];
        tx := tx.(balances := tx.balances[k := balance - ruling.roundtrip]);
        tx := tx.(rows := tx.rows + [Row(k, false, VERDICT_SHIPPING, ruling.roundtrip, balance - ruling.roundtrip)]);
        updated, decided := updated.(paid := balance >= ruling.roundtrip), true;
      }
      if ruling.fault != NO_FAULT {
        updated := updated.(onMerchant := ruling.fault == MERCHANT_FAULT);
        if !decided { updated := updated.(paid := !(ruling.shippingRefund.Some? && ruling.shippingRefund.value > 0)); }
      }
      tx := tx.(cases := tx.cases[id := updated]);
      if record.paid && !updated.paid { tx := tx.(openings := tx.openings + [id]); }
      wallets := tx;
      outcome := Done;
    }
  }
}
