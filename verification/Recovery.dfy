/**
 * The account-recovery protocol: an email code, a verified session, a code to the new phone, the submission. All of it
 * lives in one cache whose entries expire and count wrong guesses. Times are milliseconds.
 */
module Recovery {
  import opened Lists

  const MINUTE: int := 60 * 1000
  const DEV_OTP: string := "123456"
  const MAX_ATTEMPTS: nat := 5

  datatype Role = Customer | Merchant
  datatype Who = Who(role: Role, email: string)
  datatype Slot = EmailCode | Session | PhoneCode
  datatype Key = Key(slot: Slot, who: Who)
  datatype Entry = Entry(otp: string, expires: int, attempts: nat)

  datatype Kind = EmailSent | Verified | PhoneSent | Submitted
  /** `phone` is the number a phone code is sent to, or a submission asks for; no other call has one. */
  datatype Event = Event(kind: Kind, who: Who, at: int, phone: string)

  /** The cache, and the history of successful calls the theorems speak about. */
  datatype State = State(cache: map<Key, Entry>, log: seq<Event>)

  datatype Outcome = Done | Approved | Queued | UnknownUser | Expired | Blocked | WrongCode

  // ---- The four calls ------------------------------------------------------------------------------

  predicate Live(s: State, key: Key, now: int) {
    key in s.cache && s.cache[key].expires >= now
  }

  function Issue(s: State, slot: Slot, who: Who, otp: string, life: int, e: Event): State {
    State(s.cache[Key(slot, who) := Entry(otp, e.at + life, 0)], s.log + [e])
  }

  function CountWrong(s: State, key: Key): State
    requires key in s.cache
  {
    s.(cache := s.cache[key := s.cache[key].(attempts := s.cache[key].attempts + 1)])
  }

  function RequestEmail(s: State, who: Who, userExists: bool, now: int): (State, Outcome) {
    if !userExists then (s, UnknownUser)
    else (Issue(s, EmailCode, who, DEV_OTP, 10 * MINUTE, Event(EmailSent, who, now, "")), Done)
  }

  function VerifyEmail(s: State, who: Who, otp: string, now: int): (State, Outcome) {
    var key := Key(EmailCode, who);
    if !Live(s, key, now) then (s, Expired)
    else if s.cache[key].attempts >= MAX_ATTEMPTS then (s, Blocked)
    else if s.cache[key].otp != otp then (CountWrong(s, key), WrongCode)
    else (Issue(s.(cache := s.cache - {key}), Session, who, "true", 15 * MINUTE, Event(Verified, who, now, "")), Done)
  }

  /** The number is where the code goes; nothing of it is kept. */
  function RequestPhone(s: State, who: Who, phone: string, now: int): (State, Outcome) {
    if !Live(s, Key(Session, who), now) then (s, Expired)
    else (Issue(s, PhoneCode, who, DEV_OTP, 10 * MINUTE, Event(PhoneSent, who, now, phone)), Done)
  }

  /** What an account still has at stake: money in its wallets, active orders, and open disputes and returns. */
  datatype Risk = Risk(balance: int, activeOrders: nat, openCases: nat)

  predicate HighRisk(r: Risk) {
    r.balance > 0 || r.activeOrders > 0 || r.openCases > 0
  }

  predicate LetThrough(o: Outcome) {
    o == Queued || o == Approved
  }

  /** The session must be there, but its expiry is not looked at again. */
  function Submit(s: State, who: Who, phone: string, otp: string, userExists: bool, risk: Risk, now: int)
    : (State, Outcome)
  {
    var session, code := Key(Session, who), Key(PhoneCode, who);
    if session !in s.cache then (s, Expired)
    else if !Live(s, code, now) then (s, Expired)
    else if s.cache[code].attempts >= MAX_ATTEMPTS then (s, Blocked)
    else if s.cache[code].otp != otp then (CountWrong(s, code), WrongCode)
    else if !userExists then (s, UnknownUser)
    else
      var after := State(s.cache - {session, code}, s.log + [Event(Submitted, who, now, phone)]);
      (after, if HighRisk(risk) then Queued else Approved)
  }

  datatype Action =
    | CallRequestEmail(who: Who, userExists: bool)
    | CallVerifyEmail(who: Who, otp: string)
    | CallRequestPhone(who: Who, phone: string)
    | CallSubmit(who: Who, phone: string, otp: string, userExists: bool, risk: Risk)

  function Step(s: State, a: Action, now: int): State {
    match a
    case CallRequestEmail(who, userExists) => RequestEmail(s, who, userExists, now).0
    case CallVerifyEmail(who, otp) => VerifyEmail(s, who, otp, now).0
    case CallRequestPhone(who, phone) => RequestPhone(s, who, phone, now).0
    case CallSubmit(who, phone, otp, userExists, risk) => Submit(s, who, phone, otp, userExists, risk, now).0
  }

  datatype Call = Call(action: Action, at: int)

  /** The state after a list of calls, starting from an empty cache. */
  function Run(calls: seq<Call>): State {
    if calls == [] then State(map[], [])
    else Step(Run(calls[..|calls| - 1]), calls[|calls| - 1].action, calls[|calls| - 1].at)
  }

  predicate Chronological(calls: seq<Call>) {
    forall i, j :: 0 <= i < j < |calls| ==> calls[i].at <= calls[j].at
  }

  // ---- Every success has its cause -------------------------------------------------------------------

  /** An earlier event of the given kind, for the same account, at most `life` before event m. */
  ghost predicate CausedBy(log: seq<Event>, m: nat, kind: Kind, life: int)
    requires m < |log|
  {
    exists k :: 0 <= k < m && log[k].kind == kind && log[k].who == log[m].who && 0 <= log[m].at - log[k].at <= life
  }

  ghost predicate Caused(log: seq<Event>, m: nat)
    requires m < |log|
  {
    match log[m].kind
    case EmailSent => true
    case Verified => CausedBy(log, m, EmailSent, 10 * MINUTE)
    case PhoneSent => CausedBy(log, m, Verified, 15 * MINUTE)
    case Submitted => CausedBy(log, m, PhoneSent, 10 * MINUTE)
  }

  function Opener(slot: Slot): (Kind, int) {
    match slot
    case EmailCode => (EmailSent, 10 * MINUTE)
    case Session => (Verified, 15 * MINUTE)
    case PhoneCode => (PhoneSent, 10 * MINUTE)
  }

  ghost predicate Opened(log: seq<Event>, slot: Slot, who: Who, expires: int) {
    exists k :: 0 <= k < |log| && log[k].kind == Opener(slot).0 && log[k].who == who
                && log[k].at == expires - Opener(slot).1
  }

  /** A cache entry was written by an event that is in the history, and has had at most five wrong guesses. */
  ghost predicate Justified(s: State, key: Key)
    requires key in s.cache
  {
    && Opened(s.log, key.slot, key.who, s.cache[key].expires)
    && s.cache[key].attempts <= MAX_ATTEMPTS
  }

  ghost predicate Inv(s: State, now: int) {
    && (forall e :: e in s.log ==> e.at <= now)
    && (forall m :: 0 <= m < |s.log| ==> Caused(s.log, m))
    && (forall key :: key in s.cache ==> Justified(s, key))
  }

  lemma AppendCaused(log: seq<Event>, e: Event)
    requires forall m :: 0 <= m < |log| ==> Caused(log, m)
    requires Caused(log + [e], |log|)
    ensures forall m :: 0 <= m < |log + [e]| ==> Caused(log + [e], m)
  {
    forall m | 0 <= m < |log| ensures Caused(log + [e], m) {
      assert Caused(log, m);
      var kind :=
        if log[m].kind == Verified then EmailSent else if log[m].kind == PhoneSent then Verified else PhoneSent;
      var life := if log[m].kind == PhoneSent then 15 * MINUTE else 10 * MINUTE;
      if log[m].kind != EmailSent {
        var k :| 0 <= k < m && log[k].kind == kind && log[k].who == log[m].who && 0 <= log[m].at - log[k].at <= life;
        assert (log + [e])[k] == log[k] && (log + [e])[m] == log[m];
      }
    }
  }

  /** A live entry names the event that caused what is done with it now. */
  lemma LiveCauses(s: State, slot: Slot, who: Who, kind: Kind, now: int, phone: string)
    requires Inv(s, now) && Live(s, Key(slot, who), now)
    ensures CausedBy(s.log + [Event(kind, who, now, phone)], |s.log|, Opener(slot).0, Opener(slot).1)
  {
    var key := Key(slot, who);
    assert Justified(s, key);
    var k :| 0 <= k < |s.log| && s.log[k].kind == Opener(slot).0 && s.log[k].who == who
             && s.log[k].at == s.cache[key].expires - Opener(slot).1;
    assert s.log[k] in s.log;
    assert (s.log + [Event(kind, who, now, phone)])[k] == s.log[k];
  }

  lemma OpenedStays(log: seq<Event>, e: Event, slot: Slot, who: Who, expires: int)
    requires Opened(log, slot, who, expires)
    ensures Opened(log + [e], slot, who, expires)
  {
    var k :| 0 <= k < |log| && log[k].kind == Opener(slot).0 && log[k].who == who
             && log[k].at == expires - Opener(slot).1;
    assert (log + [e])[k] == log[k];
  }

  lemma IssueInv(s: State, slot: Slot, who: Who, otp: string, e: Event)
    requires e.kind == Opener(slot).0 && e.who == who
    requires Inv(s, e.at) && Caused(s.log + [e], |s.log|)
    ensures Inv(Issue(s, slot, who, otp, Opener(slot).1, e), e.at)
  {
    var after := Issue(s, slot, who, otp, Opener(slot).1, e);
    AppendCaused(s.log, e);
    forall key | key in after.cache ensures Justified(after, key) {
      if key == Key(slot, who) {
        assert after.log[|s.log|] == e;
      } else {
        assert Justified(s, key);
        OpenedStays(s.log, e, key.slot, key.who, s.cache[key].expires);
      }
    }
  }

  lemma CountWrongInv(s: State, key: Key, now: int)
    requires Inv(s, now) && key in s.cache && s.cache[key].attempts < MAX_ATTEMPTS
    ensures Inv(CountWrong(s, key), now)
  {
    forall other | other in s.cache ensures Justified(CountWrong(s, key), other) { assert Justified(s, other); }
  }

  lemma VerifyInv(s: State, who: Who, otp: string, now: int)
    requires Inv(s, now)
    ensures Inv(VerifyEmail(s, who, otp, now).0, now)
  {
    var key := Key(EmailCode, who);
    if VerifyEmail(s, who, otp, now).1 == WrongCode {
      CountWrongInv(s, key, now);
    } else if VerifyEmail(s, who, otp, now).1 == Done {
      LiveCauses(s, EmailCode, who, Verified, now, "");
      var cleared := s.(cache := s.cache - {key});
      forall other | other in cleared.cache ensures Justified(cleared, other) { assert Justified(s, other); }
      IssueInv(cleared, Session, who, "true", Event(Verified, who, now, ""));
    }
  }

  lemma SubmitInv(s: State, who: Who, phone: string, otp: string, userExists: bool, risk: Risk, now: int)
    requires Inv(s, now)
    ensures Inv(Submit(s, who, phone, otp, userExists, risk, now).0, now)
  {
    var after := Submit(s, who, phone, otp, userExists, risk, now).0;
    if Submit(s, who, phone, otp, userExists, risk, now).1 == WrongCode {
      CountWrongInv(s, Key(PhoneCode, who), now);
    } else if LetThrough(Submit(s, who, phone, otp, userExists, risk, now).1) {
      LiveCauses(s, PhoneCode, who, Submitted, now, phone);
      AppendCaused(s.log, Event(Submitted, who, now, phone));
      forall other | other in after.cache ensures Justified(after, other) {
        assert Justified(s, other);
        OpenedStays(s.log, Event(Submitted, who, now, phone), other.slot, other.who, s.cache[other].expires);
      }
    }
  }

  lemma StepInv(s: State, a: Action, now: int)
    requires Inv(s, now)
    ensures Inv(Step(s, a, now), now)
  {
    match a
    case CallRequestEmail(who, userExists) =>
      if userExists { IssueInv(s, EmailCode, who, DEV_OTP, Event(EmailSent, who, now, "")); }
    case CallVerifyEmail(who, otp) => VerifyInv(s, who, otp, now);
    case CallRequestPhone(who, phone) =>
      if Live(s, Key(Session, who), now) {
        LiveCauses(s, Session, who, PhoneSent, now, phone);
        IssueInv(s, PhoneCode, who, DEV_OTP, Event(PhoneSent, who, now, phone));
      }
    case CallSubmit(who, phone, otp, userExists, risk) => SubmitInv(s, who, phone, otp, userExists, risk, now);
  }

  lemma {:induction false} RunInv(calls: seq<Call>)
    requires Chronological(calls)
    ensures forall now :: calls == [] || calls[|calls| - 1].at <= now ==> Inv(Run(calls), now)
  {
    if calls != [] {
      var init, last := calls[..|calls| - 1], calls[|calls| - 1];
      RunInv(init);
      assert Inv(Run(init), last.at);
      StepInv(Run(init), last.action, last.at);
      assert Inv(Run(calls), last.at);
    }
  }

  /**
   * A successful submission at T was preceded, for the same role and email, by a phone code at p, a verification at v
   * and an email code at r, with r <= v <= p <= T and each step within its time limit.
   */
  lemma SubmissionChain(calls: seq<Call>, m: nat) returns (r: nat, v: nat, p: nat)
    requires Chronological(calls) && m < |Run(calls).log| && Run(calls).log[m].kind == Submitted
    ensures var log := Run(calls).log;
            && r < v < p < m
            && log[r].kind == EmailSent && log[v].kind == Verified && log[p].kind == PhoneSent
            && log[r].who == log[v].who == log[p].who == log[m].who
            && 0 <= log[v].at - log[r].at <= 10 * MINUTE
            && 0 <= log[p].at - log[v].at <= 15 * MINUTE
            && 0 <= log[m].at - log[p].at <= 10 * MINUTE
  {
    RunInv(calls);
    var log := Run(calls).log;
    var now := if calls == [] then 0 else calls[|calls| - 1].at;
    assert Inv(Run(calls), now);
    assert Caused(log, m);
    p :| 0 <= p < m && log[p].kind == PhoneSent && log[p].who == log[m].who
        && 0 <= log[m].at - log[p].at <= 10 * MINUTE;
    assert Caused(log, p);
    v :| 0 <= v < p && log[v].kind == Verified && log[v].who == log[p].who && 0 <= log[p].at - log[v].at <= 15 * MINUTE;
    assert Caused(log, v);
    r :| 0 <= r < v && log[r].kind == EmailSent && log[r].who == log[v].who
        && 0 <= log[v].at - log[r].at <= 10 * MINUTE;
  }

  /** No code is ever guessed wrong more than five times. */
  lemma AttemptsBounded(calls: seq<Call>, key: Key)
    requires Chronological(calls) && key in Run(calls).cache
    ensures Run(calls).cache[key].attempts <= MAX_ATTEMPTS
  {
    RunInv(calls);
    var now := if calls == [] then 0 else calls[|calls| - 1].at;
    assert Inv(Run(calls), now);
    assert Justified(Run(calls), key);
  }

  // ---- Each code and each session is used at most once -----------------------------------------------

  function Counts(kind: Kind, who: Who): Event -> int {
    (e: Event) => if e.kind == kind && e.who == who then 1 else 0
  }

  function Present(s: State, slot: Slot, who: Who): int {
    if Key(slot, who) in s.cache then 1 else 0
  }

  datatype Tally = Tally(emails: int, verifications: int, phones: int, submissions: int)

  function TallyOf(log: seq<Event>, who: Who): Tally {
    Tally(Sum(log, Counts(EmailSent, who)), Sum(log, Counts(Verified, who)), Sum(log, Counts(PhoneSent, who)),
          Sum(log, Counts(Submitted, who)))
  }

  function Added(t: Tally, e: Event, who: Who): Tally {
    if e.who != who then t
    else match e.kind
      case EmailSent => t.(emails := t.emails + 1)
      case Verified => t.(verifications := t.verifications + 1)
      case PhoneSent => t.(phones := t.phones + 1)
      case Submitted => t.(submissions := t.submissions + 1)
  }

  lemma TallyNext(log: seq<Event>, e: Event, who: Who)
    ensures TallyOf(log + [e], who) == Added(TallyOf(log, who), e, who)
  {
    SumAppend(log, e, Counts(EmailSent, who));
    SumAppend(log, e, Counts(Verified, who));
    SumAppend(log, e, Counts(PhoneSent, who));
    SumAppend(log, e, Counts(Submitted, who));
  }

  /** Uses so far, plus the entry still unused, never exceed the times it was opened. */
  predicate Covered(s: State, t: Tally, who: Who) {
    && t.verifications + Present(s, EmailCode, who) <= t.emails
    && t.submissions + Present(s, Session, who) <= t.verifications
    && t.submissions + Present(s, PhoneCode, who) <= t.phones
  }

  ghost predicate SingleUse(s: State, who: Who) {
    Covered(s, TallyOf(s.log, who), who)
  }

  /** The event a call logs if it succeeds. */
  function EventOf(a: Action, now: int): Event {
    match a
    case CallRequestEmail(who, _) => Event(EmailSent, who, now, "")
    case CallVerifyEmail(who, _) => Event(Verified, who, now, "")
    case CallRequestPhone(who, phone) => Event(PhoneSent, who, now, phone)
    case CallSubmit(who, phone, _, _, _) => Event(Submitted, who, now, phone)
  }

  lemma StepLogs(s: State, a: Action, now: int)
    ensures Step(s, a, now).log == s.log || Step(s, a, now).log == s.log + [EventOf(a, now)]
  {
  }

  lemma StepCovered(s: State, a: Action, now: int, t: Tally, who: Who)
    requires Covered(s, t, who)
    ensures Covered(Step(s, a, now), if Step(s, a, now).log == s.log then t else Added(t, EventOf(a, now), who), who)
  {
  }

  lemma StepSingleUse(s: State, a: Action, now: int, who: Who)
    requires SingleUse(s, who)
    ensures SingleUse(Step(s, a, now), who)
  {
    StepLogs(s, a, now);
    StepCovered(s, a, now, TallyOf(s.log, who), who);
    TallyNext(s.log, EventOf(a, now), who);
  }

  /**
   * For every account: submissions never outnumber verifications or phone codes, and verifications never outnumber
   * email codes, whatever the times of the calls.
   */
  lemma {:induction false} RunSingleUse(calls: seq<Call>, who: Who)
    ensures SingleUse(Run(calls), who)
  {
    if calls != [] {
      var last := calls[|calls| - 1];
      RunSingleUse(calls[..|calls| - 1], who);
      StepSingleUse(Run(calls[..|calls| - 1]), last.action, last.at, who);
    }
  }

  // ---- A timely client succeeds ----------------------------------------------------------------------------

  ghost predicate Holds(s: State, key: Key, entry: Entry) {
    key in s.cache && s.cache[key] == entry
  }

  ghost predicate ByOthers(calls: seq<Call>, who: Who) {
    forall c :: c in calls ==> c.action.who != who
  }

  lemma OtherStep(s: State, a: Action, now: int, key: Key, entry: Entry)
    requires Holds(s, key, entry) && a.who != key.who
    ensures Holds(Step(s, a, now), key, entry)
  {
  }

  /** Calls for other accounts leave an account's entries alone. */
  lemma {:induction false} OthersKeep(calls: seq<Call>, others: seq<Call>, key: Key, entry: Entry)
    requires ByOthers(others, key.who) && Holds(Run(calls), key, entry)
    ensures Holds(Run(calls + others), key, entry)
  {
    if others == [] {
      assert calls + others == calls;
    } else {
      var n := |others| - 1;
      assert others[n] in others;
      OthersKeep(calls, others[..n], key, entry);
      assert (calls + others)[..|calls| + n] == calls + others[..n];
      OtherStep(Run(calls + others[..n]), others[n].action, others[n].at, key, entry);
    }
  }

  /** What a call leaves in the cache is still there when the same account calls next. */
  lemma NextFinds(calls: seq<Call>, c: Call, others: seq<Call>, key: Key, entry: Entry)
    requires ByOthers(others, key.who) && Holds(Step(Run(calls), c.action, c.at), key, entry)
    ensures Holds(Run(calls + [c] + others), key, entry)
  {
    assert (calls + [c])[..|calls|] == calls;
    OthersKeep(calls + [c], others, key, entry);
  }

  /**
   * Whatever came before, and whatever other accounts do in between: a client that asks for the email code, returns it
   * within ten minutes, asks for the phone code within fifteen more and returns that within ten is let through. That
   * holds for any two numbers: the one the code was sent to and the one the submission asks for need not be the same.
   */
  lemma TimelyRunSucceeds(before: seq<Call>, c1: seq<Call>, c2: seq<Call>, c3: seq<Call>, who: Who, r: int, v: int,
                          p: int, t: int, risk: Risk, phone: string, number: string)
    requires ByOthers(c1, who) && ByOthers(c2, who) && ByOthers(c3, who)
    requires v <= r + 10 * MINUTE && p <= v + 15 * MINUTE && t <= p + 10 * MINUTE
    ensures var asked := before + [Call(CallRequestEmail(who, true), r)] + c1;
            var verified := asked + [Call(CallVerifyEmail(who, DEV_OTP), v)] + c2;
            var phoned := verified + [Call(CallRequestPhone(who, phone), p)] + c3;
            && VerifyEmail(Run(asked), who, DEV_OTP, v).1 == Done
            && RequestPhone(Run(verified), who, phone, p).1 == Done
            && Submit(Run(phoned), who, number, DEV_OTP, true, risk, t).1 == if HighRisk(risk) then Queued else Approved
  {
    var session := Entry("true", v + 15 * MINUTE, 0);
    var asked := before + [Call(CallRequestEmail(who, true), r)] + c1;
    NextFinds(before, Call(CallRequestEmail(who, true), r), c1, Key(EmailCode, who),
              Entry(DEV_OTP, r + 10 * MINUTE, 0));
    var verified := asked + [Call(CallVerifyEmail(who, DEV_OTP), v)] + c2;
    NextFinds(asked, Call(CallVerifyEmail(who, DEV_OTP), v), c2, Key(Session, who), session);
    NextFinds(verified, Call(CallRequestPhone(who, phone), p), c3, Key(Session, who), session);
    NextFinds(verified, Call(CallRequestPhone(who, phone), p), c3, Key(PhoneCode, who),
              Entry(DEV_OTP, p + 10 * MINUTE, 0));
  }

  // ---- The service ---------------------------------------------------------------------------------

  class RecoveryService {
    var otpCache: map<Key, Entry>
    var phones: map<Who, string>
    var frozenUntil: map<Who, int>
    var requests: seq<(Who, string)>
    ghost var log: seq<Event>

    constructor (phones: map<Who, string>)
      ensures Abstract() == Run([]) && this.phones == phones && frozenUntil == map[] && requests == []
    {
      this.phones := phones;
      otpCache, frozenUntil, requests := map[], map[], [];
      log := [];
    }

    ghost function Abstract(): State
      reads this
    {
      State(otpCache, log)
    }

    method RequestEmailOtp(who: Who, userExists: bool, now: int) returns (outcome: Outcome)
      modifies this`otpCache, this`log
      ensures (Abstract(), outcome) == RequestEmail(old(Abstract()), who, userExists, now)
      ensures outcome == (if userExists then Done else UnknownUser)
      ensures otpCache == if !userExists then old(otpCache)
                          else old(otpCache)[Key(EmailCode, who) := Entry("123456", now + 10 * 60 * 1000, 0)]
    {
      if !userExists { return UnknownUser; }
      otpCache := otpCache[Key(EmailCode, who) := Entry(DEV_OTP, now + 10 * MINUTE, 0)];
      log := log + [Event(EmailSent, who, now, "")];
      outcome := Done;
    }

    /** A live code takes five wrong guesses; the right one turns it into a session of 15 minutes. */
    method VerifyEmailOtp(who: Who, otp: string, now: int) returns (outcome: Outcome)
      modifies this`otpCache, this`log
      ensures (Abstract(), outcome) == VerifyEmail(old(Abstract()), who, otp, now)
      ensures var key, cache := Key(EmailCode, who), old(otpCache);
              if key !in cache || cache[key].expires < now then outcome == Expired && otpCache == cache
              else if cache[key].attempts >= 5 then outcome == Blocked && otpCache == cache
              else if cache[key].otp != otp then
                && outcome == WrongCode
                && otpCache == cache[key := cache[key].(attempts := cache[key].attempts + 1)]
              else && outcome == Done && key !in otpCache
                   && otpCache - {key} == cache[Key(Session, who) := Entry("true", now + 15 * 60 * 1000, 0)] - {key}
    {
      var key := Key(EmailCode, who);
      if key !in otpCache || otpCache[key].expires < now { return Expired; }
      var cached := otpCache[key];
      if cached.attempts >= MAX_ATTEMPTS { return Blocked; }
      if cached.otp != otp {
        otpCache := otpCache[key := cached.(attempts := cached.attempts + 1)];
        return WrongCode;
      }
      otpCache := otpCache - {key};
      otpCache := otpCache[Key(Session, who) := Entry("true", now + 15 * MINUTE, 0)];
      log := log + [Event(Verified, who, now, "")];
      outcome := Done;
    }

    method RequestPhoneOtp(who: Who, newPhone: string, now: int) returns (outcome: Outcome)
      modifies this`otpCache, this`log
      ensures (Abstract(), outcome) == RequestPhone(old(Abstract()), who, newPhone, now)
      ensures outcome == Done <==> Key(Session, who) in old(otpCache) && old(otpCache)[Key(Session, who)].expires >= now
      ensures outcome != Done ==> outcome == Expired && otpCache == old(otpCache)
      ensures outcome == Done ==>
                otpCache == old(otpCache)[Key(PhoneCode, who) := Entry("123456", now + 10 * 60 * 1000, 0)]
    {
      var session := Key(Session, who);
      if session !in otpCache || otpCache[session].expires < now { return Expired; }
      otpCache := otpCache[Key(PhoneCode, who) := Entry(DEV_OTP, now + 10 * MINUTE, 0)];
      log := log + [Event(PhoneSent, who, now, newPhone)];
      outcome := Done;
    }

    /**
     * A new phone waits for review if the account still has money, active orders or open cases; any other account gets
     * it at once, with withdrawals frozen for 12 hours.
     */
    method SubmitRecovery(who: Who, newPhone: string, otp: string, userExists: bool, risk: Risk, now: int)
      returns (outcome: Outcome)
      modifies this
      ensures (Abstract(), outcome) == Submit(old(Abstract()), who, newPhone, otp, userExists, risk, now)
      ensures LetThrough(outcome) ==>
                && (outcome == Queued <==> risk.balance > 0 || risk.activeOrders > 0 || risk.openCases > 0)
                && otpCache == old(otpCache) - {Key(Session, who), Key(PhoneCode, who)}
      ensures LetThrough(outcome)
              <==> && userExists && Key(Session, who) in old(otpCache) && Key(PhoneCode, who) in old(otpCache)
                   && var code := old(otpCache)[Key(PhoneCode, who)];
                      code.expires >= now && code.attempts < 5 && code.otp == otp
      ensures !LetThrough(outcome) && outcome != WrongCode ==> otpCache == old(otpCache)
      ensures outcome == Approved ==> && phones == old(phones)[who := newPhone]
                                      && frozenUntil == old(frozenUntil)[who := now + 12 * 60 * MINUTE]
      ensures outcome != Approved ==> phones == old(phones) && frozenUntil == old(frozenUntil)
      ensures requests == if outcome == Queued then old(requests) + [(who, newPhone)] else old(requests)
    {
      var session, code := Key(Session, who), Key(PhoneCode, who);
      if session !in otpCache { return Expired; }
      if code !in otpCache || otpCache[code].expires < now { return Expired; }
      var cached := otpCache[code];
      if cached.attempts >= MAX_ATTEMPTS { return Blocked; }
      if cached.otp != otp {
        otpCache := otpCache[code := cached.(attempts := cached.attempts + 1)];
        return WrongCode;
      }
      if !userExists { return UnknownUser; }
      if risk.balance > 0 || risk.activeOrders > 0 || risk.openCases > 0 {
        requests := requests + [(who, newPhone)];
        outcome := Queued;
      } else {
        phones := phones[who := newPhone];
        frozenUntil := frozenUntil[who := now + 12 * 60 * MINUTE];
        outcome := Approved;
      }
      otpCache := otpCache - {session};
      otpCache := otpCache - {code};
      assert otpCache == old(otpCache) - {session, code};
      log := log + [Event(Submitted, who, now, newPhone)];
    }
  }
}
