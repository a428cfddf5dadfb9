/**
 * The unified financial feed: the newest `limit + skip` rows of four tables are mapped to one event
 * type, merged, filtered by type, stable-sorted by their settlement date and sliced into a page.
 */
module FinancialFeed {
  import opened Lists
  import opened StableSort
  import opened MoneyStates

  datatype Source = PAYMENT | WALLET | ESCROW | WITHDRAWAL
  datatype Direction = CREDIT | DEBIT | HOLD | RELEASE | FREEZE

  datatype PaymentRow = PaymentRow(amount: int, status: string, createdAt: int, paidAt: Option<int>)
  datatype WalletRow = WalletRow(amount: int, isCredit: bool, transactionType: string, createdAt: int)
  datatype EscrowRow = EscrowRow(merchantAmount: int, status: EscrowStatus, createdAt: int, releasedAt: Option<int>)
  datatype WithdrawalRow = WithdrawalRow(amount: int, status: string, createdAt: int, updatedAt: int)

  /** What an event is called; `TypeName` spells it. */
  datatype EventType = PaymentIs(status: string) | WalletIs(transactionType: string) | EscrowIs(escrow: EscrowStatus)
                     | WithdrawalIs(status: string)

  /** `row` identifies the record inside its table: its place in the newest-created-first order of the query. */
  datatype Event = Event(source: Source, row: nat, eventType: EventType, direction: Direction, amount: int,
                         updatedAt: int)

  /** The rows matching the date and search filters, each table in its query order. */
  datatype Tables = Tables(payments: seq<PaymentRow>, wallet: seq<WalletRow>, escrows: seq<EscrowRow>,
                           withdrawals: seq<WithdrawalRow>)

  datatype Feed = Feed(data: seq<Event>, total: nat, hasMore: bool)

  // ---- The four mappers -------------------------------------------------------------------------

  function OrElse(date: Option<int>, createdAt: int): int {
    match date case Some(d) => d case None => createdAt
  }

  function UpperChar(c: char): char {
    if 'a' <= c <= 'z' then ((c as int) - ('a' as int) + ('A' as int)) as char else c
  }

  function Upper(s: string): string {
    Map(s, UpperChar)
  }

  function PaymentEvent(i: nat, p: PaymentRow): Event {
    Event(PAYMENT, i, PaymentIs(p.status), DEBIT, p.amount, OrElse(p.paidAt, p.createdAt))
  }

  function WalletEvent(i: nat, w: WalletRow): Event {
    Event(WALLET, i, WalletIs(w.transactionType), if w.isCredit then CREDIT else DEBIT, w.amount, w.createdAt)
  }

  function EscrowEvent(i: nat, e: EscrowRow): Event {
    var direction := if e.status == RELEASED then RELEASE else if e.status == FROZEN then FREEZE else HOLD;
    Event(ESCROW, i, EscrowIs(e.status), direction, e.merchantAmount, OrElse(e.releasedAt, e.createdAt))
  }

  function WithdrawalEvent(i: nat, w: WithdrawalRow): Event {
    Event(WITHDRAWAL, i, WithdrawalIs(w.status), DEBIT, w.amount, w.updatedAt)
  }

  function SourceName(s: Source): string {
    match s case PAYMENT => "PAYMENT" case WALLET => "WALLET" case ESCROW => "ESCROW" case WITHDRAWAL => "WITHDRAWAL"
  }

  function StatusName(s: EscrowStatus): string {
    match s case HELD => "HELD" case RELEASED => "RELEASED" case FROZEN => "FROZEN" case REFUNDED => "REFUNDED"
  }

  function TypeName(t: EventType): string {
    match t
    case PaymentIs(status) => "PAYMENT_" + status
    case WalletIs(transactionType) => Upper(transactionType)
    case EscrowIs(status) => "ESCROW_" + StatusName(status)
    case WithdrawalIs(status) => "WITHDRAWAL_" + status
  }

  // ---- The feed ---------------------------------------------------------------------------------

  function TableSize(db: Tables, source: Source): nat {
    match source
    case PAYMENT => |db.payments|
    case WALLET => |db.wallet|
    case ESCROW => |db.escrows|
    case WITHDRAWAL => |db.withdrawals|
  }

  /** Field by field, what the event of a row shows: settled means paid or released, or else created. */
  predicate ShowsItsRow(db: Tables, e: Event) {
    match e.source
    case PAYMENT =>
      && e.row < |db.payments|
      && var p := db.payments[e.row];
         && e.eventType == PaymentIs(p.status) && e.amount == p.amount && e.direction == DEBIT
         && (p.paidAt.Some? ==> e.updatedAt == p.paidAt.value)
         && (p.paidAt.None? ==> e.updatedAt == p.createdAt)
    case WALLET =>
      && e.row < |db.wallet|
      && var w := db.wallet[e.row];
         && e.eventType == WalletIs(w.transactionType) && e.amount == w.amount && e.updatedAt == w.createdAt
         && (e.direction == CREDIT <==> w.isCredit) && (e.direction == DEBIT <==> !w.isCredit)
    case ESCROW =>
      && e.row < |db.escrows|
      && var h := db.escrows[e.row];
         && e.eventType == EscrowIs(h.status) && e.amount == h.merchantAmount
         && (e.direction == RELEASE <==> h.status == RELEASED) && (e.direction == FREEZE <==> h.status == FROZEN)
         && (e.direction == HOLD <==> h.status in {HELD, REFUNDED})
         && (h.releasedAt.Some? ==> e.updatedAt == h.releasedAt.value)
         && (h.releasedAt.None? ==> e.updatedAt == h.createdAt)
    case WITHDRAWAL =>
      && e.row < |db.withdrawals|
      && var w := db.withdrawals[e.row];
         && e.eventType == WithdrawalIs(w.status) && e.amount == w.amount && e.direction == DEBIT
         && e.updatedAt == w.updatedAt
  }

  /** One table's events, one for each row and in its place. */
  function TableEvents(db: Tables, source: Source): (r: seq<Event>)
    ensures |r| == TableSize(db, source)
    ensures forall i :: 0 <= i < |r| ==> r[i].source == source && r[i].row == i && ShowsItsRow(db, r[i])
  {
    match source
    case PAYMENT => seq(|db.payments|, i requires 0 <= i < |db.payments| => PaymentEvent(i, db.payments[i]))
    case WALLET => seq(|db.wallet|, i requires 0 <= i < |db.wallet| => WalletEvent(i, db.wallet[i]))
    case ESCROW => seq(|db.escrows|, i requires 0 <= i < |db.escrows| => EscrowEvent(i, db.escrows[i]))
    case WITHDRAWAL => seq(|db.withdrawals|,
                           i requires 0 <= i < |db.withdrawals| => WithdrawalEvent(i, db.withdrawals[i]))
  }

  function Merged(db: Tables): seq<Event> {
    TableEvents(db, PAYMENT) + TableEvents(db, WALLET) + TableEvents(db, ESCROW) + TableEvents(db, WITHDRAWAL)
  }

  function Fetched(db: Tables, k: nat): Tables {
    Tables(Take(db.payments, k), Take(db.wallet, k), Take(db.escrows, k), Take(db.withdrawals, k))
  }

  /** The type filter: a source name or an event type, or nothing asked for. */
  datatype Wanted = Everything | Only(name: string)

  function Asked(parameter: Option<string>): Wanted {
    if parameter.None? || parameter.value == "" || parameter.value == "ALL" then Everything else Only(parameter.value)
  }

  function TypeFilter(wanted: Wanted): Event -> bool {
    (e: Event) => wanted.Everything? || SourceName(e.source) == wanted.name || TypeName(e.eventType) == wanted.name
  }

  function SettledAt(): Event -> int {
    (e: Event) => e.updatedAt
  }

  /** JavaScript's slice clamps both bounds. */
  function Slice<T>(s: seq<T>, from: nat, to: nat): seq<T>
    requires from <= to
  {
    if from >= |s| then [] else if to >= |s| then s[from..] else s[from..to]
  }

  function Listing(events: seq<Event>, wanted: Event -> bool): seq<Event> {
    Sort(Filter(events, wanted), SettledAt())
  }

  function FeedOf(events: seq<Event>, limit: nat, skip: nat, wanted: Event -> bool): Feed {
    var sorted := Listing(events, wanted);
    Feed(Slice(sorted, skip, skip + limit), |sorted|, |sorted| > skip + limit)
  }

  function GetUnifiedFeed(db: Tables, limit: nat, skip: nat, wanted: Event -> bool): Feed {
    FeedOf(Merged(Fetched(db, limit + skip)), limit, skip, wanted)
  }

  /** The page a reader expects: the same slice of everything, with no truncation. */
  function TruePage(db: Tables, limit: nat, skip: nat, wanted: Event -> bool): seq<Event> {
    FeedOf(Merged(db), limit, skip, wanted).data
  }

  function RowCount(db: Tables): nat {
    |db.payments| + |db.wallet| + |db.escrows| + |db.withdrawals|
  }

  // ---- Truncating the tables is a filter on the merged list ----------------------------------------

  function Within(k: nat): Event -> bool {
    (e: Event) => e.row < k
  }

  function From(source: Source): Event -> bool {
    (e: Event) => e.source == source
  }

  lemma {:induction false} PrefixIsFilter(all: seq<Event>, k: nat)
    requires forall i :: 0 <= i < |all| ==> all[i].row == i
    ensures Filter(all, Within(k)) == Take(all, k)
  {
    if all != [] {
      var n := |all| - 1;
      PrefixIsFilter(all[..n], k);
      assert n >= k ==> all[..n][..k] == all[..k];
    }
  }

  lemma TakeIsFilter(db: Tables, source: Source, k: nat)
    ensures TableEvents(Fetched(db, k), source) == Filter(TableEvents(db, source), Within(k))
  {
    PrefixIsFilter(TableEvents(db, source), k);
  }

  lemma MergedSplit(db: Tables, p: Event -> bool)
    ensures Filter(Merged(db), p) == Filter(TableEvents(db, PAYMENT), p) + Filter(TableEvents(db, WALLET), p)
                                     + Filter(TableEvents(db, ESCROW), p) + Filter(TableEvents(db, WITHDRAWAL), p)
  {
    var a, b, c, d := TableEvents(db, PAYMENT), TableEvents(db, WALLET), TableEvents(db, ESCROW),
        TableEvents(db, WITHDRAWAL);
    FilterConcat(a + b + c, d, p);
    FilterConcat(a + b, c, p);
    FilterConcat(a, b, p);
  }

  lemma {:induction false} FilterSwap(s: seq<Event>, p: Event -> bool, q: Event -> bool)
    ensures Filter(Filter(s, p), q) == Filter(Filter(s, q), p)
  {
    if s != [] {
      var init, last := s[..|s| - 1], s[|s| - 1];
      FilterSwap(init, p, q);
      if p(last) { FilterAppend(Filter(init, p), last, q); }
      if q(last) { FilterAppend(Filter(init, q), last, p); }
    }
  }

  lemma FetchedIsFilter(db: Tables, k: nat)
    ensures Merged(Fetched(db, k)) == Filter(Merged(db), Within(k))
  {
    forall source ensures TableEvents(Fetched(db, k), source) == Filter(TableEvents(db, source), Within(k)) {
      TakeIsFilter(db, source, k);
    }
    MergedSplit(db, Within(k));
  }

  lemma ListingFiltered(events: seq<Event>, wanted: Event -> bool, p: Event -> bool)
    ensures Listing(Filter(events, p), wanted) == Filter(Listing(events, wanted), p)
  {
    FilterSwap(events, p, wanted);
    SortFiltered(Filter(events, wanted), SettledAt(), p);
  }

  /** The truncated listing is the true listing with the unfetched rows struck out. */
  lemma TruncatedListing(db: Tables, wanted: Event -> bool, k: nat)
    ensures Listing(Merged(Fetched(db, k)), wanted) == Filter(Listing(Merged(db), wanted), Within(k))
  {
    FetchedIsFilter(db, k);
    ListingFiltered(Merged(db), wanted, Within(k));
  }

  lemma OtherTableFiltered(db: Tables, source: Source, other: Source)
    ensures Filter(TableEvents(db, other), From(source)) == if other == source then TableEvents(db, source) else []
  {
    var rows := TableEvents(db, other);
    assert forall e :: e in rows ==> e.source == other;
    if other == source { FilterAll(rows, From(source)); } else { FilterNone(rows, From(source)); }
  }

  lemma OnlyOne(a: seq<Event>, b: seq<Event>, c: seq<Event>, d: seq<Event>)
    ensures b == c == d == [] ==> a + b + c + d == a
    ensures a == c == d == [] ==> a + b + c + d == b
    ensures a == b == d == [] ==> a + b + c + d == c
    ensures a == b == c == [] ==> a + b + c + d == d
  {
  }

  lemma TableListing(db: Tables, source: Source)
    ensures Filter(Merged(db), From(source)) == TableEvents(db, source)
  {
    var p := From(source);
    MergedSplit(db, p);
    OtherTableFiltered(db, source, PAYMENT);
    OtherTableFiltered(db, source, WALLET);
    OtherTableFiltered(db, source, ESCROW);
    OtherTableFiltered(db, source, WITHDRAWAL);
    OnlyOne(Filter(TableEvents(db, PAYMENT), p), Filter(TableEvents(db, WALLET), p), Filter(TableEvents(db, ESCROW), p),
            Filter(TableEvents(db, WITHDRAWAL), p));
  }

  lemma ListsEverything(events: seq<Event>)
    ensures Filter(events, TypeFilter(Everything)) == events && |Listing(events, TypeFilter(Everything))| == |events|
  {
    FilterAll(events, TypeFilter(Everything));
  }

  lemma MergedSize(db: Tables)
    ensures |Merged(db)| == RowCount(db)
  {
  }

  lemma MergedDistinct(db: Tables)
    ensures Distinct(Merged(db))
  {
    var m := Merged(db);
    forall i, j | 0 <= i < j < |m| ensures m[i] != m[j] {
      assert m[i].source != m[j].source || m[i].row < m[j].row;
    }
  }

  lemma ListingDistinct(events: seq<Event>, wanted: Event -> bool)
    requires Distinct(events)
    ensures Distinct(Listing(events, wanted))
  {
    FilterDistinct(events, wanted);
    SortDistinct(Filter(events, wanted), SettledAt());
  }

  // ---- When a page is exact ------------------------------------------------------------------------

  /** The first k events of s, or all of them, satisfy p. */
  ghost predicate TopAll(s: seq<Event>, p: Event -> bool, k: nat) {
    forall j :: 0 <= j < k && j < |s| ==> p(s[j])
  }

  lemma FilterKeepsTop(s: seq<Event>, p: Event -> bool, skip: nat, k: nat)
    requires skip <= k && TopAll(s, p, k)
    ensures Slice(Filter(s, p), skip, k) == Slice(s, skip, k)
  {
    var top, rest := Take(s, k), if |s| <= k then [] else s[k..];
    assert s == top + rest;
    FilterConcat(top, rest, p);
    FilterAll(top, p);
  }

  lemma HoleShrinks(top: seq<Event>, p: Event -> bool, hole: nat)
    requires hole < |top| && !p(top[hole])
    ensures |Filter(top, p)| < |top|
  {
    var before, after := top[..hole], top[hole + 1..];
    assert top == (before + [top[hole]]) + after;
    FilterConcat(before + [top[hole]], after, p);
    FilterAppend(before, top[hole], p);
  }

  lemma DistinctParts(top: seq<Event>, rest: seq<Event>, e: Event)
    requires Distinct(top + rest) && e in rest
    ensures e !in top
  {
    var i :| 0 <= i < |rest| && rest[i] == e;
    assert (top + rest)[|top| + i] == e;
    forall j | 0 <= j < |top| ensures top[j] != e {
      assert (top + rest)[j] == top[j];
    }
  }

  /** A missing row on or before a page shifts it: what now ends the page came from behind it. */
  lemma ShiftedPage(top: seq<Event>, rest: seq<Event>, kept: seq<Event>, late: seq<Event>, skip: nat, k: nat)
    requires Distinct(top + rest) && |kept| < |top| && forall e :: e in late ==> e in rest
    requires skip < |top| <= k && (rest == [] || |top| == k)
    ensures Slice(kept + late, skip, k) != Slice(top + rest, skip, k)
  {
    var end := |top| - 1;
    assert Slice(top + rest, skip, k)[end - skip] == top[end];
    if |kept + late| > end {
      var last := (kept + late)[end];
      assert last in late;
      DistinctParts(top, rest, last);
      assert Slice(kept + late, skip, k)[end - skip] == last;
    }
  }

  lemma PartsShiftPage(top: seq<Event>, rest: seq<Event>, p: Event -> bool, skip: nat, k: nat, hole: nat)
    requires Distinct(top + rest) && skip < |top| <= k && (rest == [] || |top| == k)
    requires hole < |top| && !p(top[hole])
    ensures Slice(Filter(top + rest, p), skip, k) != Slice(top + rest, skip, k)
  {
    FilterConcat(top, rest, p);
    HoleShrinks(top, p, hole);
    FilterMembers(rest, p);
    ShiftedPage(top, rest, Filter(top, p), Filter(rest, p), skip, k);
  }

  lemma SplitAt(s: seq<Event>, m: nat) returns (top: seq<Event>, rest: seq<Event>)
    requires m <= |s|
    ensures s == top + rest && |top| == m
  {
    top, rest := s[..m], s[m..];
  }

  lemma FilterShiftsPage(s: seq<Event>, p: Event -> bool, skip: nat, k: nat)
    requires skip < k && skip < |s| && Distinct(s) && !TopAll(s, p, k)
    ensures Slice(Filter(s, p), skip, k) != Slice(s, skip, k)
  {
    var hole :| 0 <= hole < k && hole < |s| && !p(s[hole]);
    var top, rest := SplitAt(s, if k < |s| then k else |s|);
    PartsShiftPage(top, rest, p, skip, k, hole);
  }

  /** A feed over part of the events shows the same page when all that is on or before the page is in that part, */
  lemma PartialFeedExact(all: seq<Event>, part: seq<Event>, limit: nat, skip: nat, wanted: Event -> bool,
                         p: Event -> bool)
    requires part == Filter(all, p) && TopAll(Listing(all, wanted), p, limit + skip)
    ensures FeedOf(part, limit, skip, wanted).data == FeedOf(all, limit, skip, wanted).data
  {
    ListingFiltered(all, wanted, p);
    FilterKeepsTop(Listing(all, wanted), p, skip, limit + skip);
  }

  /** and another page when something is missing. */
  lemma PartialFeedShifts(all: seq<Event>, part: seq<Event>, limit: nat, skip: nat, wanted: Event -> bool,
                          p: Event -> bool)
    requires part == Filter(all, p) && Distinct(Listing(all, wanted)) && limit >= 1
    requires skip < |Listing(all, wanted)| && !TopAll(Listing(all, wanted), p, limit + skip)
    ensures FeedOf(part, limit, skip, wanted).data != FeedOf(all, limit, skip, wanted).data
  {
    var listing, k := Listing(all, wanted), skip + limit;
    ListingFiltered(all, wanted, p);
    assert FeedOf(part, limit, skip, wanted).data == Slice(Filter(listing, p), skip, k);
    assert FeedOf(all, limit, skip, wanted).data == Slice(listing, skip, k);
    FilterShiftsPage(listing, p, skip, k);
  }

  lemma BeyondTheListing(all: seq<Event>, part: seq<Event>, limit: nat, skip: nat, wanted: Event -> bool,
                         p: Event -> bool)
    requires part == Filter(all, p) && skip >= |Listing(all, wanted)|
    ensures FeedOf(part, limit, skip, wanted).data == FeedOf(all, limit, skip, wanted).data
  {
    ListingFiltered(all, wanted, p);
  }

  /**
   * For every page, limit, type filter and database: the served page is the true page if and only if the
   * page starts beyond the true listing or every row up to its end was among the `limit + skip` newest of its table.
   */
  lemma PageExactIff(db: Tables, limit: nat, skip: nat, wanted: Event -> bool)
    requires limit >= 1
    ensures GetUnifiedFeed(db, limit, skip, wanted).data == TruePage(db, limit, skip, wanted)
            <==> || skip >= |Listing(Merged(db), wanted)|
                 || TopAll(Listing(Merged(db), wanted), Within(limit + skip), limit + skip)
  {
    var all, part, listing := Merged(db), Merged(Fetched(db, limit + skip)), Listing(Merged(db), wanted);
    FetchedIsFilter(db, limit + skip);
    if skip >= |listing| {
      BeyondTheListing(all, part, limit, skip, wanted, Within(limit + skip));
    } else if TopAll(listing, Within(limit + skip), limit + skip) {
      PartialFeedExact(all, part, limit, skip, wanted, Within(limit + skip));
    } else {
      MergedDistinct(db);
      ListingDistinct(all, wanted);
      PartialFeedShifts(all, part, limit, skip, wanted, Within(limit + skip));
    }
  }

  /** Every table's newest-created-first order is also newest-settled-first. */
  ghost predicate OrdersAgree(db: Tables) {
    forall source: Source :: Descending(TableEvents(db, source), SettledAt())
  }

  /** The j-th event of a list is the n-th of its filtered form for some n <= j. */
  lemma RankInFilter(s: seq<Event>, p: Event -> bool, j: nat) returns (n: nat)
    requires j < |s| && p(s[j])
    ensures n <= j && n < |Filter(s, p)| && Filter(s, p)[n] == s[j]
  {
    var before, after := s[..j], s[j + 1..];
    assert s == (before + [s[j]]) + after;
    FilterConcat(before + [s[j]], after, p);
    FilterAppend(before, s[j], p);
    n := |Filter(before, p)|;
  }

  lemma RowAtMostRank(db: Tables, j: nat)
    requires OrdersAgree(db) && j < |Listing(Merged(db), TypeFilter(Everything))|
    ensures Listing(Merged(db), TypeFilter(Everything))[j].row <= j
  {
    ListsEverything(Merged(db));
    var s := Listing(Merged(db), TypeFilter(Everything));
    var source := s[j].source;
    SortFiltered(Merged(db), SettledAt(), From(source));
    TableListing(db, source);
    SortOfDescending(TableEvents(db, source), SettledAt());
    var n := RankInFilter(s, From(source), j);
  }

  lemma FetchedEnough(db: Tables, limit: nat, skip: nat, wanted: Event -> bool)
    requires TopAll(Listing(Merged(db), wanted), Within(limit + skip), limit + skip)
    ensures GetUnifiedFeed(db, limit, skip, wanted).data == TruePage(db, limit, skip, wanted)
  {
    FetchedIsFilter(db, limit + skip);
    PartialFeedExact(Merged(db), Merged(Fetched(db, limit + skip)), limit, skip, wanted, Within(limit + skip));
  }

  /** Without a type filter every page is exact once the tables' orders agree with the sort key. */
  lemma PagesExact(db: Tables, limit: nat, skip: nat, parameter: Option<string>)
    requires OrdersAgree(db) && Asked(parameter) == Everything
    ensures var wanted := TypeFilter(Asked(parameter));
            GetUnifiedFeed(db, limit, skip, wanted).data == TruePage(db, limit, skip, wanted)
  {
    forall j: nat | j < limit + skip && j < |Listing(Merged(db), TypeFilter(Everything))|
      ensures Listing(Merged(db), TypeFilter(Everything))[j].row <= j {
      RowAtMostRank(db, j);
    }
    FetchedEnough(db, limit, skip, TypeFilter(Everything));
  }

  lemma OneSourceListing(db: Tables, wanted: Event -> bool, source: Source)
    requires OrdersAgree(db)
    requires forall e :: e in Merged(db) ==> (wanted(e) <==> e.source == source)
    ensures Listing(Merged(db), wanted) == TableEvents(db, source)
  {
    FilterSame(Merged(db), wanted, From(source));
    TableListing(db, source);
    SortOfDescending(TableEvents(db, source), SettledAt());
  }

  /** A filter that selects exactly one table's rows is exact as well. */
  lemma OneSourceFilterExact(db: Tables, limit: nat, skip: nat, wanted: Event -> bool, source: Source)
    requires OrdersAgree(db)
    requires forall e :: e in Merged(db) ==> (wanted(e) <==> e.source == source)
    ensures GetUnifiedFeed(db, limit, skip, wanted).data == TruePage(db, limit, skip, wanted)
  {
    OneSourceListing(db, wanted, source);
    RowsAreRanks(TableEvents(db, source), limit + skip);
    FetchedEnough(db, limit, skip, wanted);
  }

  /** The filter lets everything through exactly if the parameter is missing, empty or "ALL". */
  lemma NoFilterIff(parameter: Option<string>)
    ensures (forall e: Event :: TypeFilter(Asked(parameter))(e)) <==> parameter in {None, Some(""), Some("ALL")}
  {
    if parameter.Some? && parameter != Some("") && parameter != Some("ALL") {
      var source := if parameter.value == "PAYMENT" then WALLET else PAYMENT;
      var e := Event(source, 0, WalletIs(""), DEBIT, 0, 0);
      assert TypeName(e.eventType) == "" && SourceName(source) != parameter.value;
      assert !TypeFilter(Asked(parameter))(e);
    }
  }

  /** A table's name selects that table's events and the wallet rows of a type spelled like it, nothing else. */
  lemma NameSelects(source: Source, e: Event)
    ensures TypeFilter(Asked(Some(SourceName(source))))(e)
            <==> e.source == source || (e.eventType.WalletIs? && TypeName(e.eventType) == SourceName(source))
  {
    assert !e.eventType.WalletIs? ==> TypeName(e.eventType)[0] in {'P', 'E', 'W'};
    assert SourceName(e.source) == SourceName(source) ==> |SourceName(e.source)| == |SourceName(source)|;
    assert "PAYMENT_"[7] == "ESCROW_"[6] == "WITHDRAWAL_"[10] == '_';
    assert !e.eventType.WalletIs? ==> '_' in TypeName(e.eventType);
    assert '_' !in SourceName(source);
  }

  /** So asking for a table by name gives exact pages unless some wallet row's type is spelled like it. */
  lemma NamedTableExact(db: Tables, limit: nat, skip: nat, source: Source)
    requires OrdersAgree(db)
    requires source != WALLET ==> forall w :: w in db.wallet ==> Upper(w.transactionType) != SourceName(source)
    ensures var wanted := TypeFilter(Asked(Some(SourceName(source))));
            GetUnifiedFeed(db, limit, skip, wanted).data == TruePage(db, limit, skip, wanted)
  {
    var wanted := TypeFilter(Asked(Some(SourceName(source))));
    forall e | e in Merged(db) ensures wanted(e) <==> e.source == source {
      NameSelects(source, e);
      MergedShowsRows(db);
    }
    OneSourceFilterExact(db, limit, skip, wanted, source);
  }

  // ---- Page after page ------------------------------------------------------------------------------

  /** Where page i starts. */
  function Start(limit: nat, i: nat): nat {
    if i == 0 then 0 else Start(limit, i - 1) + limit
  }

  lemma {:induction false} StartIs(limit: nat, i: nat)
    ensures Start(limit, i) == i * limit
  {
    if i > 0 {
      StartIs(limit, i - 1);
      assert i * limit == (i - 1) * limit + limit;
    }
  }

  function UnfilteredPage(db: Tables, limit: nat): nat -> seq<Event> {
    (i: nat) => GetUnifiedFeed(db, limit, Start(limit, i), TypeFilter(Asked(None))).data
  }

  function FirstPages(page: nat -> seq<Event>, n: nat): seq<Event> {
    if n == 0 then [] else FirstPages(page, n - 1) + page(n - 1)
  }

  function Everywhere(db: Tables): seq<Event> {
    Listing(Merged(db), TypeFilter(Everything))
  }

  ghost predicate ShowsPage(all: seq<Event>, page: nat -> seq<Event>, limit: nat, i: nat) {
    page(i) == Slice(all, Start(limit, i), Start(limit, i) + limit)
  }

  lemma UnfilteredSlice(db: Tables, limit: nat, i: nat)
    requires OrdersAgree(db)
    ensures ShowsPage(Everywhere(db), UnfilteredPage(db, limit), limit, i)
  {
    PagesExact(db, limit, Start(limit, i), None);
  }

  lemma NextSlice(all: seq<Event>, from: nat, to: nat)
    requires from <= to
    ensures Take(all, from) + Slice(all, from, to) == Take(all, to)
  {
  }

  lemma {:induction false} SlicesJoin(all: seq<Event>, page: nat -> seq<Event>, limit: nat, n: nat)
    requires forall i: nat :: ShowsPage(all, page, limit, i)
    ensures FirstPages(page, n) == Take(all, Start(limit, n))
  {
    if n > 0 {
      SlicesJoin(all, page, limit, n - 1);
      assert ShowsPage(all, page, limit, n - 1);
      NextSlice(all, Start(limit, n - 1), Start(limit, n - 1) + limit);
    }
  }

  lemma WholeListing(db: Tables)
    ensures var all := Everywhere(db);
            && multiset(all) == multiset(Merged(db)) && |all| == RowCount(db)
            && Distinct(all) && Descending(all, SettledAt())
  {
    ListsEverything(Merged(db));
    MergedSize(db);
    SortPermutes(Merged(db), SettledAt());
    MergedDistinct(db);
    SortDistinct(Merged(db), SettledAt());
  }

  lemma FirstPagesJoin(db: Tables, limit: nat, n: nat)
    requires OrdersAgree(db)
    ensures FirstPages(UnfilteredPage(db, limit), n) == Take(Everywhere(db), Start(limit, n))
  {
    forall i: nat ensures ShowsPage(Everywhere(db), UnfilteredPage(db, limit), limit, i) {
      UnfilteredSlice(db, limit, i);
    }
    SlicesJoin(Everywhere(db), UnfilteredPage(db, limit), limit, n);
  }

  /** Pages read one after the other until they cover the rows show every event of all tables once, newest first. */
  lemma WholeFeedOnce(db: Tables, limit: nat, n: nat)
    requires OrdersAgree(db) && n * limit >= RowCount(db)
    ensures var read := FirstPages(UnfilteredPage(db, limit), n);
            && multiset(read) == multiset(Merged(db)) && |read| == RowCount(db)
            && Distinct(read) && Descending(read, SettledAt())
  {
    FirstPagesJoin(db, limit, n);
    StartIs(limit, n);
    WholeListing(db);
  }

  lemma RowsAreRanks(s: seq<Event>, k: nat)
    requires forall i :: 0 <= i < |s| ==> s[i].row == i
    ensures TopAll(s, Within(k), k)
  {
  }

  lemma {:induction false} FilterSame(s: seq<Event>, p: Event -> bool, q: Event -> bool)
    requires forall e :: e in s ==> p(e) == q(e)
    ensures Filter(s, p) == Filter(s, q)
  {
    if s != [] {
      assert s == s[..|s| - 1] + [s[|s| - 1]];
      FilterSame(s[..|s| - 1], p, q);
    }
  }

  lemma UnfetchedOnPage(db: Tables, limit: nat, skip: nat, wanted: Event -> bool, j: nat)
    requires limit >= 1 && skip <= j < limit + skip && j < |Listing(Merged(db), wanted)|
    requires Listing(Merged(db), wanted)[j].row >= limit + skip
    ensures GetUnifiedFeed(db, limit, skip, wanted).data != TruePage(db, limit, skip, wanted)
  {
    assert !Within(limit + skip)(Listing(Merged(db), wanted)[j]);
    PageExactIff(db, limit, skip, wanted);
  }

  lemma WalletOrderAgrees(db: Tables)
    requires db.payments == [] && db.escrows == [] && db.withdrawals == []
    requires forall i, j :: 0 <= i < j < |db.wallet| ==> db.wallet[i].createdAt >= db.wallet[j].createdAt
    ensures OrdersAgree(db)
  {
  }

  lemma TwoEscrows(db: Tables)
    requires db.payments == [] && db.wallet == [] && |db.escrows| == 2 && db.withdrawals == []
    ensures Merged(db) == [EscrowEvent(0, db.escrows[0])] + [EscrowEvent(1, db.escrows[1])]
  {
  }

  lemma TwoWalletRows(db: Tables)
    requires db.payments == [] && |db.wallet| == 2 && db.escrows == [] && db.withdrawals == []
    ensures Merged(db) == [WalletEvent(0, db.wallet[0])] + [WalletEvent(1, db.wallet[1])]
  {
  }

  /** Orders that disagree: an old escrow released last belongs on the first page but is not fetched. */
  lemma LateReleaseMissed()
    ensures var db := Tables([], [], [EscrowRow(1, HELD, 10, None), EscrowRow(2, RELEASED, 5, Some(20))], []);
            GetUnifiedFeed(db, 1, 0, TypeFilter(Everything)).data != TruePage(db, 1, 0, TypeFilter(Everything))
  {
    var db := Tables([], [], [EscrowRow(1, HELD, 10, None), EscrowRow(2, RELEASED, 5, Some(20))], []);
    var newer, older := EscrowEvent(0, db.escrows[0]), EscrowEvent(1, db.escrows[1]);
    TwoEscrows(db);
    FilterAll(Merged(db), TypeFilter(Everything));
    SortTwo(newer, older, SettledAt());
    assert Listing(Merged(db), TypeFilter(Everything)) == [older, newer];
    UnfetchedOnPage(db, 1, 0, TypeFilter(Everything), 0);
  }

  lemma SelectsOlder(newer: Event, older: Event)
    requires newer.source == older.source == WALLET && newer.eventType == WalletIs("withdrawal")
             && older.eventType == WalletIs("payment")
    ensures Sort(Filter([newer] + [older], TypeFilter(Only("PAYMENT"))), SettledAt()) == [older]
  {
    var q := TypeFilter(Only("PAYMENT"));
    assert Upper("payment") == "PAYMENT";
    FilterAppend([newer], older, q);
    FilterNone([newer], q);
    assert Filter([newer] + [older], q) == [older] && [older][..0] == [];
  }

  lemma ListsOlder(db: Tables)
    requires db == Tables([], [WalletRow(1, false, "withdrawal", 10), WalletRow(2, true, "payment", 9)], [], [])
    ensures Listing(Merged(db), TypeFilter(Only("PAYMENT"))) == [WalletEvent(1, db.wallet[1])]
  {
    TwoWalletRows(db);
    SelectsOlder(WalletEvent(0, db.wallet[0]), WalletEvent(1, db.wallet[1]));
  }

  /**
   * With a type filter agreement is not enough: "PAYMENT" also selects wallet rows of type `payment`, and one
   * that sits behind an unrelated newer wallet row is not fetched.
   */
  lemma TypeFilterMissesWalletPayment()
    ensures var db := Tables([], [WalletRow(1, false, "withdrawal", 10), WalletRow(2, true, "payment", 9)], [], []);
            var wanted := TypeFilter(Only("PAYMENT"));
            OrdersAgree(db) && GetUnifiedFeed(db, 1, 0, wanted).data != TruePage(db, 1, 0, wanted)
  {
    var db := Tables([], [WalletRow(1, false, "withdrawal", 10), WalletRow(2, true, "payment", 9)], [], []);
    ListsOlder(db);
    UnfetchedOnPage(db, 1, 0, TypeFilter(Only("PAYMENT")), 0);
    WalletOrderAgrees(db);
  }

  // ---- What a page shows ---------------------------------------------------------------------------

  lemma TablesShowRows(db: Tables, source: Source)
    ensures forall e :: e in TableEvents(db, source) ==> ShowsItsRow(db, e)
  {
  }

  lemma MergedShowsRows(db: Tables)
    ensures forall e :: e in Merged(db) ==> ShowsItsRow(db, e)
  {
    forall source: Source ensures forall e :: e in TableEvents(db, source) ==>
           ShowsItsRow(db, e) { TablesShowRows(db, source); }
  }

  lemma SliceKeeps<T>(s: seq<T>, key: T -> int, from: nat, to: nat)
    requires from <= to && Descending(s, key) && Distinct(s)
    ensures Descending(Slice(s, from, to), key) && Distinct(Slice(s, from, to))
    ensures forall e :: e in Slice(s, from, to) ==> e in s
  {
  }

  lemma ListingMembers(events: seq<Event>, wanted: Event -> bool)
    ensures Descending(Listing(events, wanted), SettledAt())
    ensures forall e :: e in Listing(events, wanted) ==> e in events && wanted(e)
  {
    FilterMembers(events, wanted);
    SortPermutes(Filter(events, wanted), SettledAt());
    forall e | e in Listing(events, wanted) ensures e in Filter(events, wanted) {
      assert e in multiset(Listing(events, wanted)) && e in multiset(Filter(events, wanted));
    }
  }

  lemma FeedShows(events: seq<Event>, limit: nat, skip: nat, wanted: Event -> bool)
    requires Distinct(events)
    ensures var data := FeedOf(events, limit, skip, wanted).data;
            && Descending(data, SettledAt()) && Distinct(data) && forall e :: e in data ==> e in events && wanted(e)
  {
    ListingDistinct(events, wanted);
    ListingMembers(events, wanted);
    SliceKeeps(Listing(events, wanted), SettledAt(), skip, skip + limit);
  }

  lemma FeedSize(events: seq<Event>, limit: nat, skip: nat, wanted: Event -> bool)
    ensures var feed := FeedOf(events, limit, skip, wanted);
            && feed.total == |Filter(events, wanted)|
            && |feed.data| == Cap(if feed.total <= skip then 0 else feed.total - skip, limit)
  {
  }

  /**
   * Every event served passes the filter and shows a fetched row; newer settlements come first, none comes twice. Only
   * a last page is short, and the total counts the fetched rows alone.
   */
  lemma ServedPage(db: Tables, limit: nat, skip: nat, wanted: Event -> bool)
    ensures var feed := GetUnifiedFeed(db, limit, skip, wanted);
            && Descending(feed.data, SettledAt()) && Distinct(feed.data)
            && (forall e :: e in feed.data ==> wanted(e) && ShowsItsRow(Fetched(db, limit + skip), e))
            && |feed.data| == Cap(if feed.total <= skip then 0 else feed.total - skip, limit)
            && feed.total == WantedCount(Fetched(db, limit + skip), wanted)
  {
    var fetched := Fetched(db, limit + skip);
    MergedShowsRows(fetched);
    MergedDistinct(fetched);
    FeedShows(Merged(fetched), limit, skip, wanted);
    FeedSize(Merged(fetched), limit, skip, wanted);
  }

  // ---- hasMore -------------------------------------------------------------------------------------

  /** One table holds every row there is, and more of them than one fetch takes. */
  ghost predicate SingleDeepTable(db: Tables, k: nat) {
    exists source: Source :: TableSize(db, source) == RowCount(db) > k
  }

  lemma CappedCounts(a: nat, b: nat, c: nat, d: nat, k: nat)
    requires k >= 1
    ensures Cap(a, k) + Cap(b, k) + Cap(c, k) + Cap(d, k) > k
            <==> && a + b + c + d > k
                 && !(a == a + b + c + d || b == a + b + c + d || c == a + b + c + d || d == a + b + c + d)
  {
  }

  function Cap(n: nat, k: nat): nat {
    if n <= k then n else k
  }

  lemma FeedHasMore(events: seq<Event>, limit: nat, skip: nat)
    ensures FeedOf(events, limit, skip, TypeFilter(Everything)).hasMore <==> |events| > limit + skip
  {
    ListsEverything(events);
  }

  lemma FetchedSize(db: Tables, k: nat)
    ensures RowCount(Fetched(db, k))
            == Cap(|db.payments|, k) + Cap(|db.wallet|, k) + Cap(|db.escrows|, k) + Cap(|db.withdrawals|, k)
  {
    TakeSize(db.payments, k);
    TakeSize(db.wallet, k);
    TakeSize(db.escrows, k);
    TakeSize(db.withdrawals, k);
  }

  lemma HasMoreCounts(db: Tables, limit: nat, skip: nat)
    ensures var k := limit + skip;
            GetUnifiedFeed(db, limit, skip, TypeFilter(Everything)).hasMore <==>
            Cap(|db.payments|, k) + Cap(|db.wallet|, k) + Cap(|db.escrows|, k) + Cap(|db.withdrawals|, k) > k
  {
    FeedHasMore(Merged(Fetched(db, limit + skip)), limit, skip);
    MergedSize(Fetched(db, limit + skip));
    FetchedSize(db, limit + skip);
  }

  lemma TakeSize<T>(rows: seq<T>, k: nat)
    ensures |Take(rows, k)| == Cap(|rows|, k)
  {
  }

  /**
   * hasMore never promises rows that are not there, and it misses rows that are there exactly when a single
   * table holds them all.
   */
  lemma HasMoreIff(db: Tables, limit: nat, skip: nat)
    requires limit >= 1
    ensures GetUnifiedFeed(db, limit, skip, TypeFilter(Everything)).hasMore
            <==> RowCount(db) > limit + skip && !SingleDeepTable(db, limit + skip)
  {
    var k := limit + skip;
    HasMoreCounts(db, limit, skip);
    CappedCounts(|db.payments|, |db.wallet|, |db.escrows|, |db.withdrawals|, k);
    if RowCount(db) > k {
      assert SingleDeepTable(db, k) <==>
        exists source: Source :: TableSize(db, source) == RowCount(db);
      assert TableSize(db, PAYMENT) == RowCount(db) || TableSize(db, WALLET) == RowCount(db)
        || TableSize(db, ESCROW) == RowCount(db) || TableSize(db, WITHDRAWAL) == RowCount(db)
        <==> SingleDeepTable(db, k);
    }
  }

  // ---- hasMore under a type filter -----------------------------------------------------------------

  /** How many events the filter wants, in one table and in all. */
  function WantedIn(db: Tables, source: Source, wanted: Event -> bool): nat {
    |Filter(TableEvents(db, source), wanted)|
  }

  function WantedCount(db: Tables, wanted: Event -> bool): nat {
    |Filter(Merged(db), wanted)|
  }

  /** A wanted event of a row that a fetch of k leaves out. */
  function WantedBeyond(k: nat, wanted: Event -> bool): Event -> bool {
    (e: Event) => wanted(e) && e.row >= k
  }

  function Unfetched(db: Tables, k: nat, wanted: Event -> bool): nat {
    |Filter(Merged(db), WantedBeyond(k, wanted))|
  }

  lemma {:induction false} SplitByPlace(s: seq<Event>, k: nat, wanted: Event -> bool)
    ensures |Filter(s, wanted)| == |Filter(Filter(s, Within(k)), wanted)| + |Filter(s, WantedBeyond(k, wanted))|
  {
    if s != [] {
      var n := |s| - 1;
      SplitByPlace(s[..n], k, wanted);
      FilterAppend(Filter(s[..n], Within(k)), s[n], wanted);
    }
  }

  lemma PartialFeedHasMore(all: seq<Event>, part: seq<Event>, limit: nat, skip: nat, wanted: Event -> bool)
    requires part == Filter(all, Within(limit + skip))
    ensures FeedOf(part, limit, skip, wanted).hasMore
            <==> |Filter(all, wanted)| > limit + skip + |Filter(all, WantedBeyond(limit + skip, wanted))|
  {
    SplitByPlace(all, limit + skip, wanted);
  }

  /**
   * For every filter and against the whole database: `hasMore` is true exactly when the wanted events exceed the pages
   * so far by more than those among them whose rows were not fetched.
   */
  lemma HasMoreFilteredIff(db: Tables, limit: nat, skip: nat, wanted: Event -> bool)
    ensures GetUnifiedFeed(db, limit, skip, wanted).hasMore
            <==> WantedCount(db, wanted) > limit + skip + Unfetched(db, limit + skip, wanted)
  {
    FetchedIsFilter(db, limit + skip);
    PartialFeedHasMore(Merged(db), Merged(Fetched(db, limit + skip)), limit, skip, wanted);
  }

  /** So it is never wrong when true, and wrong when false exactly if the unfetched events make up the excess. */
  lemma HasMoreMissedIff(db: Tables, limit: nat, skip: nat, wanted: Event -> bool)
    ensures var k, hasMore := limit + skip, GetUnifiedFeed(db, limit, skip, wanted).hasMore;
            && (hasMore ==> |Listing(Merged(db), wanted)| > k)
            && (!hasMore && |Listing(Merged(db), wanted)| > k
                <==> k < WantedCount(db, wanted) <= k + Unfetched(db, k, wanted))
  {
    HasMoreFilteredIff(db, limit, skip, wanted);
  }

  /** The filter wants events of one table only. */
  ghost predicate WantsOnly(db: Tables, only: Source, wanted: Event -> bool) {
    forall e :: e in Merged(db) && wanted(e) ==> e.source == only
  }

  lemma WantedAtMost(db: Tables, source: Source, wanted: Event -> bool)
    ensures WantedIn(db, source, wanted) <= TableSize(db, source)
  {
  }

  lemma OthersUnwanted(db: Tables, only: Source, source: Source, wanted: Event -> bool)
    requires WantsOnly(db, only, wanted) && source != only
    ensures WantedIn(db, source, wanted) == 0
  {
    forall e | e in TableEvents(db, source) ensures !wanted(e) { assert e in Merged(db); }
    FilterNone(TableEvents(db, source), wanted);
  }

  lemma OnlyOneCounts(db: Tables, only: Source, wanted: Event -> bool)
    requires WantsOnly(db, only, wanted)
    ensures WantedCount(db, wanted) <= TableSize(db, only)
  {
    MergedSplit(db, wanted);
    WantedAtMost(db, only, wanted);
    if only != PAYMENT { OthersUnwanted(db, only, PAYMENT, wanted); }
    if only != WALLET { OthersUnwanted(db, only, WALLET, wanted); }
    if only != ESCROW { OthersUnwanted(db, only, ESCROW, wanted); }
    if only != WITHDRAWAL { OthersUnwanted(db, only, WITHDRAWAL, wanted); }
  }

  lemma FetchedAtMost(db: Tables, k: nat, source: Source)
    ensures TableSize(Fetched(db, k), source) <= k
  {
  }

  lemma FeedHasMoreIs(events: seq<Event>, limit: nat, skip: nat, wanted: Event -> bool)
    ensures FeedOf(events, limit, skip, wanted).hasMore <==> |Filter(events, wanted)| > limit + skip
  {
  }

  /** A filter that wants events of one table only never shows more, however many of them there are. */
  lemma OneTableNeverHasMore(db: Tables, limit: nat, skip: nat, wanted: Event -> bool, only: Source)
    requires WantsOnly(Fetched(db, limit + skip), only, wanted)
    ensures !GetUnifiedFeed(db, limit, skip, wanted).hasMore
  {
    FetchedAtMost(db, limit + skip, only);
    OnlyOneCounts(Fetched(db, limit + skip), only, wanted);
    FeedHasMoreIs(Merged(Fetched(db, limit + skip)), limit, skip, wanted);
  }
}
