/** Brute-force lockout of the config server's admin login (internal/configserver/auth.go); times are in nanoseconds. */
module LoginLockout {

  const MAX_LOGIN_FAILS := 5
  const LOCKOUT := 300_000_000_000

  datatype FailInfo = FailInfo(count: nat, until: int)

  type Fails = map<string, FailInfo>

  datatype Attempt =
    | Login(ip: string, passwordOk: bool)
    | Fail(ip: string)                   // a failed LDAP bind
    | StartSession(ip: string)           // a successful LDAP bind

  datatype Event = Event(at: nat, attempt: Attempt)

  datatype Outcome = TooManyAttempts | WrongPassword | LoggedIn

  predicate Locked(fails: Fails, ip: string, now: nat) {
    ip in fails && now < fails[ip].until
  }

  function CountFailure(fails: Fails, ip: string, now: nat): Fails {
    var f := if ip in fails then fails[ip] else FailInfo(0, 0);
    fails[ip := if f.count + 1 >= MAX_LOGIN_FAILS then FailInfo(0, now + LOCKOUT) else f.(count := f.count + 1)]
  }

  function LoginOutcome(fails: Fails, ip: string, passwordOk: bool, now: nat): Outcome {
    if Locked(fails, ip, now) then TooManyAttempts else if passwordOk then LoggedIn else WrongPassword
  }

  function Step(fails: Fails, e: Event): Fails {
    match e.attempt
    case Login(ip, ok) =>
      (match LoginOutcome(fails, ip, ok, e.at)
       case TooManyAttempts => fails
       case WrongPassword => CountFailure(fails, ip, e.at)
       case LoggedIn => fails - {ip})
    case Fail(ip) => CountFailure(fails, ip, e.at)
    case StartSession(ip) => fails - {ip}
  }

  class Auth {
    var fails: Fails

    constructor ()
      ensures fails == map[]
    {
      fails := map[];
    }

    method LockedOut(ip: string, now: nat) returns (locked: bool)
      ensures locked == Locked(fails, ip, now)
    {
      if ip !in fails {
        return false;
      }
      locked := now < fails[ip].until;
    }

    method RecordFailure(ip: string, now: nat)
      modifies this
      ensures fails == CountFailure(old(fails), ip, now)
    {
      if ip !in fails {
        fails := fails[ip := FailInfo(0, 0)];
      }
      var f := fails[ip];
      f := f.(count := f.count + 1);
      if f.count >= MAX_LOGIN_FAILS {
        f := FailInfo(0, now + LOCKOUT);
      }
      fails := fails[ip := f];
    }

    method TryLogin(ip: string, passwordOk: bool, now: nat) returns (r: Outcome)
      modifies this
      ensures r == LoginOutcome(old(fails), ip, passwordOk, now)
      ensures fails == Step(old(fails), Event(now, Login(ip, passwordOk)))
    {
      var locked := LockedOut(ip, now);
      if locked {
        return TooManyAttempts;
      }
      if !passwordOk {
        RecordFailure(ip, now);
        return WrongPassword;
      }
      fails := fails - {ip};
      return LoggedIn;
    }

    method OpenSession(ip: string, now: nat)
      modifies this
      ensures fails == Step(old(fails), Event(now, StartSession(ip)))
    {
      fails := fails - {ip};
    }
  }

  // ---- the bound on wrong-password checks for one address

  predicate InOrder(events: seq<Event>) {
    forall i, j :: 0 <= i < j < |events| ==> events[i].at <= events[j].at
  }

  predicate InWindow(e: Event, start: int, length: int) {
    start <= e.at < start + length
  }

  /** The event checks a password for ip and finds it wrong. */
  predicate WrongCheck(fails: Fails, e: Event, ip: string) {
    e.attempt.Login? && e.attempt.ip == ip && LoginOutcome(fails, ip, e.attempt.passwordOk, e.at) == WrongPassword
  }

  predicate Succeeds(fails: Fails, e: Event, ip: string) {
    e.attempt.ip == ip &&
    (e.attempt.StartSession? || (e.attempt.Login? && LoginOutcome(fails, ip, e.attempt.passwordOk, e.at) == LoggedIn))
  }

  function WrongChecks(fails: Fails, events: seq<Event>, ip: string, start: int, length: int): nat
    decreases |events|
  {
    if events == [] then 0
    else
      (if InWindow(events[0], start, length) && WrongCheck(fails, events[0], ip) then 1 else 0)
      + WrongChecks(Step(fails, events[0]), events[1..], ip, start, length)
  }

  predicate NoSuccess(fails: Fails, events: seq<Event>, ip: string, start: int, length: int)
    decreases |events|
  {
    events == [] ||
    (&& !(InWindow(events[0], start, length) && Succeeds(fails, events[0], ip))
     && NoSuccess(Step(fails, events[0]), events[1..], ip, start, length))
  }

  /** Lockout periods begun in a window of this length, counting a started one. */
  function Periods(length: int): int {
    (length + LOCKOUT - 1) / LOCKOUT
  }

  function Info(fails: Fails, ip: string): FailInfo {
    if ip in fails then fails[ip] else FailInfo(0, 0)
  }

  /**
   Bookkeeping for one window: `checks` wrong checks so far, `rounds` lockouts they have paid for, `open` of them
   not paid for yet. Each paid round has moved the end of the lockout one period past the window's start.
   */
  ghost predicate Paid(f: FailInfo, start: int, last: int, checks: nat, rounds: nat, open: nat) {
    && open <= f.count < MAX_LOGIN_FAILS
    && checks <= 5 * rounds + open
    && (rounds > 0 ==> start + rounds * LOCKOUT <= f.until <= last + LOCKOUT)
    && (last < f.until ==> open == 0)
  }

  lemma PaidForCheck(f: FailInfo, start: int, last: int, now: nat, checks: nat, rounds: nat, open: nat)
      returns (rounds': nat, open': nat)
    requires Paid(f, start, last, checks, rounds, open)
    requires start <= now && last <= now && f.until <= now
    ensures Paid(Info(CountFailure(map["" := f], "", now), ""), start, now, checks + 1, rounds', open')
  {
    if f.count + 1 >= MAX_LOGIN_FAILS {
      rounds', open' := rounds + 1, 0;
    } else {
      rounds', open' := rounds, open + 1;
    }
  }

  lemma PaidForFailure(f: FailInfo, start: int, last: int, now: nat, checks: nat, rounds: nat, open: nat)
      returns (rounds': nat, open': nat)
    requires Paid(f, start, last, checks, rounds, open)
    requires start <= now && last <= now
    ensures Paid(Info(CountFailure(map["" := f], "", now), ""), start, now, checks, rounds', open')
  {
    if f.count + 1 >= MAX_LOGIN_FAILS && f.until <= now {
      rounds', open' := rounds + 1, 0;
    } else {
      rounds', open' := rounds, open;
    }
  }

  lemma CheckFits(f: FailInfo, start: int, last: int, now: nat, length: int, checks: nat, rounds: nat, open: nat)
    requires Paid(f, start, last, checks, rounds, open)
    requires f.until <= now < start + length && start <= now
    ensures checks + 1 <= 5 * Periods(length)
  {
    assert rounds < Periods(length);
  }

  lemma {:induction false} WindowBound(fails: Fails, events: seq<Event>, ip: string, start: int, length: int,
                                       last: int, checks: nat, rounds: nat, open: nat)
    requires InOrder(events) && (events != [] ==> start <= events[0].at && last <= events[0].at)
    requires NoSuccess(fails, events, ip, start, length)
    requires Paid(Info(fails, ip), start, last, checks, rounds, open)
    requires checks <= 5 * Periods(length)
    ensures checks + WrongChecks(fails, events, ip, start, length) <= 5 * Periods(length)
    decreases |events|
  {
    if events == [] || !InWindow(events[0], start, length) {
      LateEvents(fails, events, ip, start, length);
    } else {
      var e, f := events[0], Info(fails, ip);
      var checks', rounds', open' := checks, rounds, open;
      if WrongCheck(fails, e, ip) {
        CheckFits(f, start, last, e.at, length, checks, rounds, open);
        rounds', open' := PaidForCheck(f, start, last, e.at, checks, rounds, open);
        checks' := checks + 1;
      } else if e.attempt.Fail? && e.attempt.ip == ip {
        rounds', open' := PaidForFailure(f, start, last, e.at, checks, rounds, open);
      }
      WindowBound(Step(fails, e), events[1..], ip, start, length, e.at, checks', rounds', open');
    }
  }

  lemma {:induction false} LateEvents(fails: Fails, events: seq<Event>, ip: string, start: int, length: int)
    requires InOrder(events) && (events != [] ==> events[0].at >= start + length)
    ensures WrongChecks(fails, events, ip, start, length) == 0
    decreases |events|
  {
    if events != [] {
      LateEvents(Step(fails, events[0]), events[1..], ip, start, length);
    }
  }

  ghost predicate CountsBounded(fails: Fails) {
    forall ip :: ip in fails ==> fails[ip].count < MAX_LOGIN_FAILS
  }

  /**
   In every run whose clock does not go back, any half-open window without a successful login from ip holds at
   most 5 * ceil(length / 5 min) wrong-password checks for ip, whatever other addresses and LDAP binds do.
   */
  lemma {:induction false} LockoutBound(fails: Fails, events: seq<Event>, ip: string, start: int, length: nat)
    requires CountsBounded(fails) && InOrder(events) && NoSuccess(fails, events, ip, start, length)
    ensures WrongChecks(fails, events, ip, start, length) <= 5 * Periods(length)
    decreases |events|
  {
    if events != [] {
      if events[0].at < start {
        LockoutBound(Step(fails, events[0]), events[1..], ip, start, length);
      } else {
        var f := Info(fails, ip);
        WindowBound(fails, events, ip, start, length, start, 0, 0, 0);
      }
    }
  }

  lemma BoundHoldsFromStart(events: seq<Event>, ip: string, start: int, length: nat)
    requires InOrder(events) && NoSuccess(map[], events, ip, start, length)
    ensures WrongChecks(map[], events, ip, start, length) <= 5 * Periods(length)
  {
    LockoutBound(map[], events, ip, start, length);
  }

  // ---- when an address is locked, and when not

  function After(fails: Fails, events: seq<Event>): Fails {
    if events == [] then fails else Step(After(fails, events[..|events| - 1]), events[|events| - 1])
  }

  /** A failed bind, or a login with a wrong password, from this address. */
  predicate FailsFor(e: Event, ip: string) {
    e.attempt.ip == ip && (e.attempt.Fail? || (e.attempt.Login? && !e.attempt.passwordOk))
  }

  function Failures(events: seq<Event>, ip: string): nat {
    if events == [] then 0
    else Failures(events[..|events| - 1], ip) + if FailsFor(events[|events| - 1], ip) then 1 else 0
  }

  /** Other addresses may do anything; this one only fails. */
  predicate OnlyFailures(events: seq<Event>, ip: string) {
    forall i :: 0 <= i < |events| && events[i].attempt.ip == ip ==> FailsFor(events[i], ip)
  }

  lemma OtherAddressesDoNotMatter(fails: Fails, e: Event, ip: string)
    requires e.attempt.ip != ip
    ensures Info(Step(fails, e), ip) == Info(fails, ip)
  {
  }

  lemma {:induction false} FewFailures(fails: Fails, events: seq<Event>, ip: string)
    requires ip !in fails && OnlyFailures(events, ip) && Failures(events, ip) <= 4
    ensures Info(After(fails, events), ip) == FailInfo(Failures(events, ip), 0)
  {
    if events != [] {
      var front, e := events[..|events| - 1], events[|events| - 1];
      FewFailures(fails, front, ip);
      if e.attempt.ip != ip {
        OtherAddressesDoNotMatter(After(fails, front), e, ip);
      }
    }
  }

  /** Four failures in a row never lock an address, whatever other addresses do. */
  lemma FourFailuresNeverLock(fails: Fails, events: seq<Event>, ip: string, now: nat)
    requires ip !in fails && OnlyFailures(events, ip) && Failures(events, ip) <= 4
    ensures !Locked(After(fails, events), ip, now)
    ensures LoginOutcome(After(fails, events), ip, true, now) == LoggedIn
  {
    FewFailures(fails, events, ip);
  }

  /** The fifth one does, for exactly five minutes from then, in which the right password is refused like any other. */
  lemma FifthFailureLocksExactly(fails: Fails, events: seq<Event>, e: Event, ip: string, passwordOk: bool, now: nat)
    requires ip !in fails && OnlyFailures(events, ip) && Failures(events, ip) == 4 && FailsFor(e, ip)
    ensures var after := After(fails, events + [e]);
            && (Locked(after, ip, now) <==> now < e.at + 5 * 60 * 1_000_000_000)
            && (LoginOutcome(after, ip, passwordOk, now) == TooManyAttempts <==> now < e.at + 5 * 60 * 1_000_000_000)
            && (now < e.at + 5 * 60 * 1_000_000_000 ==> Step(after, Event(now, Login(ip, passwordOk))) == after)
  {
    FewFailures(fails, events, ip);
    assert (events + [e])[..|events|] == events;
  }

  /** A success clears the count, so that the next four failures are again without consequence. */
  lemma SuccessClears(fails: Fails, ip: string, at: nat, events: seq<Event>, now: nat)
    requires OnlyFailures(events, ip) && Failures(events, ip) <= 4
    ensures !Locked(After(Step(fails, Event(at, StartSession(ip))), events), ip, now)
    ensures !Locked(fails, ip, at) ==> !Locked(After(Step(fails, Event(at, Login(ip, true))), events), ip, now)
  {
    FourFailuresNeverLock(Step(fails, Event(at, StartSession(ip))), events, ip, now);
    if !Locked(fails, ip, at) {
      FourFailuresNeverLock(Step(fails, Event(at, Login(ip, true))), events, ip, now);
    }
  }
}
