/** The failed-login lockout: how attempts are scored, when an account locks, and for how long. */
module Lockout {
  import opened Common
  import Accounts

  const MAX_FAILED := 5
  const LOCK_SECONDS := 900

  /** The stored fields a login reads and writes. Times are seconds. */
  datatype User = User(accountType: string, permissions: seq<string>, active: bool,
                       lockedAt: Option<int>, failed: nat)

  datatype LoginResult = AccountLocked | AccountDeactivated | InvalidCredentials | LoggedIn

  /** An attempt reads the clock when it checks the lock, and again if it sets one. */
  datatype Attempt = Attempt(checkedAt: int, lockingAt: int, passwordOk: bool)

  predicate LockExempt(u: User) {
    var c := Accounts.ClassOf(u.accountType, u.permissions);
    c == Accounts.Admin || c == Accounts.Owner
  }

  predicate IsLocked(u: User, now: int) {
    !LockExempt(u) && u.lockedAt.Some? && now - u.lockedAt.value < LOCK_SECONDS
  }

  function Unlocked(u: User): User {
    u.(lockedAt := None, failed := 0)
  }

  /** The stored user after an attempt, and what the caller is told; every save succeeds. */
  function Judged(u: User, t: Attempt): (User, LoginResult) {
    if IsLocked(u, t.checkedAt) then (u, AccountLocked)
    else
      var v := if u.lockedAt.Some? then Unlocked(u) else u;
      if !v.active then (v, AccountDeactivated)
      else if t.passwordOk then (Unlocked(v), LoggedIn)
      else if LockExempt(v) then (v, InvalidCredentials)
      else
        var w := v.(failed := v.failed + 1);
        (if w.failed >= MAX_FAILED then w.(lockedAt := Some(t.lockingAt)) else w, InvalidCredentials)
  }

  /** The service, with the one stored user it finds by email. */
  class Service {
    const accountType: string
    const permissions: seq<string>
    const active: bool
    var lockedAt: Option<int>
    var failed: nat

    constructor (u: User)
      ensures Snapshot() == u
    {
      accountType, permissions, active, lockedAt, failed :=
        u.accountType, u.permissions, u.active, u.lockedAt, u.failed;
    }

    function Snapshot(): User
      reads this
    {
      User(accountType, permissions, active, lockedAt, failed)
    }

    method Unlock()
      modifies this
      ensures Snapshot() == Unlocked(old(Snapshot()))
    {
      lockedAt := None;
      failed := 0;
    }

    method Lock(now: int)
      modifies this
      ensures Snapshot() == if LockExempt(old(Snapshot())) then old(Snapshot())
                            else old(Snapshot()).(lockedAt := Some(now))
    {
      if LockExempt(Snapshot()) {
        return;
      }
      lockedAt := Some(now);
    }

    method Login(t: Attempt) returns (r: LoginResult)
      modifies this
      ensures (Snapshot(), r) == Judged(old(Snapshot()), t)
    {
      hide LockExempt;
      SameClass(Unlocked(Snapshot()), Snapshot());
      if IsLocked(Snapshot(), t.checkedAt) {
        return AccountLocked;
      }
      if lockedAt.Some? {
        Unlock();
      }
      if !active {
        return AccountDeactivated;
      }
      if !t.passwordOk {
        // An exempt account has no lock left to clear here: any stale one went above.
        assert lockedAt == None;
        if !LockExempt(Snapshot()) {
          failed := failed + 1;
          if failed >= MAX_FAILED {
            SameClass(Snapshot(), old(Snapshot()));
            Lock(t.lockingAt);
          }
        }
        return InvalidCredentials;
      }
      if failed > 0 || lockedAt.Some? {
        Unlock();
      }
      return LoggedIn;
    }
  }

  // --------------------------------------------------------- runs of attempts

  function After(u: User, run: seq<Attempt>): User {
    if run == [] then u else Judged(After(u, run[..|run| - 1]), run[|run| - 1]).0
  }

  /** An attempt is scored when the password is actually judged and found wrong. */
  predicate Scored(u: User, run: seq<Attempt>, i: nat)
    requires i < |run|
  {
    Judged(After(u, run[..i]), run[i]).1 == InvalidCredentials
  }

  function ScoredCount(u: User, run: seq<Attempt>): nat {
    if run == [] then 0
    else ScoredCount(u, run[..|run| - 1]) + if Scored(u, run, |run| - 1) then 1 else 0
  }

  /** The clock never runs backwards, within an attempt or between attempts. */
  ghost predicate ClockForward(run: seq<Attempt>) {
    (forall i :: 0 <= i < |run| ==> run[i].checkedAt <= run[i].lockingAt)
    && forall i :: 0 < i < |run| ==> run[i - 1].lockingAt <= run[i].checkedAt
  }

  /** No attempt succeeds. A right password tried while the account is locked does not. */
  ghost predicate NoneGetsIn(u: User, run: seq<Attempt>) {
    forall i :: 0 <= i < |run| ==> Judged(After(u, run[..i]), run[i]).1 != LoggedIn
  }

  predicate Fresh(u: User) {
    u.lockedAt == None && u.failed == 0
  }

  /** Who is exempt, from the stored fields: owners whatever their type, and managers with an administrator's rights. */
  lemma WhoIsExempt(u: User)
    ensures LockExempt(u) <==>
            Accounts.Granted(u.permissions, "*")
            || (u.accountType in {"manager", "admin"}
                && (Accounts.Granted(u.permissions, "admin.*")
                    || (Accounts.Granted(u.permissions, "user.read")
                        && Accounts.Granted(u.permissions, "user.permissions.update"))))
  {
    Accounts.RanksFromTokens(u.accountType, u.permissions);
    hide Accounts.Granted, Accounts.ClassOf;
  }

  lemma {:induction false} WrongGuessesCount(u: User, run: seq<Attempt>)
    requires !LockExempt(u) && Fresh(u) && u.active && |run| <= MAX_FAILED
    requires forall i :: 0 <= i < |run| ==> !run[i].passwordOk
    ensures After(u, run) == u.(failed := |run|,
                                lockedAt := if |run| == MAX_FAILED then Some(run[|run| - 1].lockingAt) else None)
    ensures run != [] ==> Judged(After(u, run[..|run| - 1]), run[|run| - 1]).1 == InvalidCredentials
  {
    hide LockExempt;
    if run != [] {
      var init := run[..|run| - 1];
      WrongGuessesCount(u, init);
      SameClass(After(u, init), u);
    }
  }

  /**
   * Five wrong passwords lock an account that is not exempt. Until fifteen minutes after the lock every attempt
   * is turned away, the right password too; from then on the right password logs in and clears the count, and
   * a wrong one starts a new count.
   */
  lemma {:induction false} FiveWrongPasswordsLock(u: User, run: seq<Attempt>, t: Attempt)
    requires !LockExempt(u) && Fresh(u) && u.active
    requires |run| == 5 && forall i :: 0 <= i < 5 ==> !run[i].passwordOk
    ensures forall i :: 0 <= i < 5 ==> Judged(After(u, run[..i]), run[i]).1 == InvalidCredentials
    ensures Judged(After(u, run), t) ==
            if t.checkedAt < run[4].lockingAt + 900 then (After(u, run), AccountLocked)
            else if t.passwordOk then (u, LoggedIn)
            else (u.(failed := 1), InvalidCredentials)
  {
    forall i | 0 <= i < 5 ensures Judged(After(u, run[..i]), run[i]).1 == InvalidCredentials {
      assert run[..i + 1][..i] == run[..i];
      WrongGuessesCount(u, run[..i + 1]);
    }
    WrongGuessesCount(u, run);
    SameClass(After(u, run), u);
    SameClass(Unlocked(After(u, run)), u);
    hide LockExempt, After;
  }

  /** A customer who holds no permission is such an account. */
  lemma CustomersAreLocked(run: seq<Attempt>, t: Attempt)
    requires |run| == 5 && forall i :: 0 <= i < 5 ==> !run[i].passwordOk
    ensures var u := User("customer", [], true, None, 0);
      Judged(After(u, run), t).1 ==
      if t.checkedAt < run[4].lockingAt + 900 then AccountLocked
      else if t.passwordOk then LoggedIn else InvalidCredentials
  {
    var u := User("customer", [], true, None, 0);
    WhoIsExempt(u);
    assert !Accounts.Granted([], "*");
    hide LockExempt;
    FiveWrongPasswordsLock(u, run, t);
  }

  /** Admins and owners are never locked out: any number of wrong passwords, then the right one, works. */
  lemma {:induction false} ExemptNeverLocked(u: User, run: seq<Attempt>, t: Attempt)
    requires LockExempt(u) && Fresh(u) && u.active
    ensures After(u, run) == u
    ensures Judged(After(u, run), t).1 == if t.passwordOk then LoggedIn else InvalidCredentials
  {
    hide LockExempt;
    if run != [] {
      ExemptNeverLocked(u, run[..|run| - 1], t);
    }
  }

  /** From a fresh account the lock is set exactly when the count has reached five, whatever passwords are tried. */
  lemma {:induction false} LockedExactlyAtFive(u: User, run: seq<Attempt>)
    requires !LockExempt(u) && Fresh(u)
    ensures var v := After(u, run);
            v.failed <= MAX_FAILED && (v.lockedAt.Some? <==> v.failed == MAX_FAILED)
            && v.accountType == u.accountType && v.permissions == u.permissions && v.active == u.active
  {
    hide LockExempt;
    if run != [] {
      LockedExactlyAtFive(u, run[..|run| - 1]);
      assert LockExempt(After(u, run[..|run| - 1])) == LockExempt(u) by {
        SameClass(After(u, run[..|run| - 1]), u);
      }
    }
  }

  lemma SameClass(u: User, v: User)
    requires u.accountType == v.accountType && u.permissions == v.permissions
    ensures LockExempt(u) == LockExempt(v)
  {
  }

  lemma NoneGotIn(u: User, run: seq<Attempt>)
    requires run != [] && NoneGetsIn(u, run)
    ensures NoneGetsIn(u, run[..|run| - 1])
    ensures Judged(After(u, run[..|run| - 1]), run[|run| - 1]).1 != LoggedIn
  {
    hide Judged, After;
    var init := run[..|run| - 1];
    forall i | 0 <= i < |init| ensures Judged(After(u, init[..i]), init[i]).1 != LoggedIn {
      assert init[..i] == run[..i] && init[i] == run[i];
    }
  }

  /** A guessing run has filled e whole rounds of five and part of another, and each full round cost a lock's wait. */
  lemma {:induction false} GuessingPace(u: User, run: seq<Attempt>) returns (e: nat)
    requires !LockExempt(u) && Fresh(u) && u.active && run != []
    requires ClockForward(run) && NoneGetsIn(u, run)
    ensures var v, reached := After(u, run), run[0].checkedAt + LOCK_SECONDS * e;
            && 1 <= v.failed <= MAX_FAILED && ScoredCount(u, run) == MAX_FAILED * e + v.failed
            && run[|run| - 1].checkedAt >= reached
            && (v.lockedAt.Some? ==> v.failed == MAX_FAILED && v.lockedAt.value >= reached)
            && (v.lockedAt == None ==> v.failed < MAX_FAILED)
  {
    hide LockExempt;
    var init := run[..|run| - 1];
    var before := After(u, init);
    LockedExactlyAtFive(u, init);
    SameClass(before, u);
    SameClass(Unlocked(before), u);
    e := 0;
    NoneGotIn(u, run);
    hide NoneGetsIn;
    if init != [] {
      e := GuessingPace(u, init);
      assert run[|run| - 2].lockingAt <= run[|run| - 1].checkedAt;
      assert init[|init| - 1] == run[|run| - 2];
      if Scored(u, run, |run| - 1) && before.failed == MAX_FAILED {
        e := e + 1;
      }
    }
  }

  /**
   * The bound the lockout buys: guesses judged within T seconds of the first number at most five for
   * that first one and five more for each full quarter of an hour.
   */
  lemma GuessesAreBounded(u: User, run: seq<Attempt>, T: nat)
    requires !LockExempt(u) && Fresh(u)
    requires ClockForward(run) && NoneGetsIn(u, run)
    requires forall i :: 0 <= i < |run| ==> run[i].checkedAt <= run[0].checkedAt + T
    ensures ScoredCount(u, run) <= MAX_FAILED * (T / LOCK_SECONDS + 1)
  {
    hide LockExempt, Judged, ScoredCount, NoneGetsIn;
    if run != [] {
      if u.active {
        var e := GuessingPace(u, run);
        FullLocks(e, T);
      } else {
        InactiveNeverScored(u, run);
      }
    } else {
      NothingScored(u);
    }
  }

  lemma FullLocks(e: nat, T: nat)
    requires LOCK_SECONDS * e <= T
    ensures e <= T / LOCK_SECONDS && MAX_FAILED * e + MAX_FAILED <= MAX_FAILED * (T / LOCK_SECONDS + 1)
  {
  }

  lemma NothingScored(u: User)
    ensures ScoredCount(u, []) == 0
  {
  }

  lemma {:induction false} InactiveNeverScored(u: User, run: seq<Attempt>)
    requires !u.active && Fresh(u)
    ensures ScoredCount(u, run) == 0 && After(u, run) == u
  {
    hide LockExempt;
    if run != [] {
      InactiveNeverScored(u, run[..|run| - 1]);
    }
  }

  function RoundStart(e: nat): int {
    if e == 0 then 0 else RoundStart(e - 1) + LOCK_SECONDS
  }

  /** e rounds of five guesses, each as soon as the last lock lifts, then f more in the next round. */
  function Burst(e: nat, f: nat): seq<Attempt> {
    if f > 0 then Burst(e, f - 1) + [Attempt(RoundStart(e), RoundStart(e), false)]
    else if e > 0 then Burst(e - 1, MAX_FAILED)
    else []
  }

  lemma {:induction false} BurstTimes(e: nat, f: nat)
    ensures ClockForward(Burst(e, f))
    ensures forall t :: t in Burst(e, f) ==> !t.passwordOk && 0 <= t.checkedAt == t.lockingAt <= RoundStart(e)
    decreases e, f
  {
    if f > 0 {
      BurstTimes(e, f - 1);
      var init := Burst(e, f - 1);
      if init != [] {
        assert init[|init| - 1] in init;
      }
      RoundStartPositive(e);
    } else if e > 0 {
      BurstTimes(e - 1, MAX_FAILED);
    }
  }

  lemma {:induction false} RoundStartPositive(e: nat)
    ensures RoundStart(e) == LOCK_SECONDS * e
  {
    if e > 0 {
      RoundStartPositive(e - 1);
    }
  }

  function Judging(u: User, e: nat, f: nat): User {
    u.(failed := f, lockedAt := if f >= MAX_FAILED then Some(RoundStart(e)) else None)
  }

  /** The bound is met: a guesser who waits out each lock has every one of those guesses judged. */
  lemma {:induction false} BoundIsTight(u: User, e: nat, f: nat)
    requires !LockExempt(u) && Fresh(u) && u.active && f <= MAX_FAILED
    ensures ClockForward(Burst(e, f))
    ensures forall t :: t in Burst(e, f) ==> !t.passwordOk && 0 <= t.checkedAt <= RoundStart(e)
    ensures RoundStart(e) == LOCK_SECONDS * e && ScoredCount(u, Burst(e, f)) == MAX_FAILED * e + f
  {
    BurstTimes(e, f);
    RoundStartPositive(e);
    AllJudged(u, e, f);
  }

  /** Where a burst leaves the account. */
  function AfterBurst(u: User, e: nat, f: nat): User {
    if f > 0 then Judging(u, e, f) else if e > 0 then Judging(u, e - 1, MAX_FAILED) else u
  }

  lemma NextIsJudged(u: User, e: nat, f: nat)
    requires !LockExempt(u) && Fresh(u) && u.active && 0 < f <= MAX_FAILED
    ensures Judged(AfterBurst(u, e, f - 1), Attempt(RoundStart(e), RoundStart(e), false))
            == (AfterBurst(u, e, f), InvalidCredentials)
  {
    hide LockExempt;
    SameClass(AfterBurst(u, e, f - 1), u);
    SameClass(Unlocked(AfterBurst(u, e, f - 1)), u);
  }

  lemma {:induction false} AllJudged(u: User, e: nat, f: nat)
    requires !LockExempt(u) && Fresh(u) && u.active && f <= MAX_FAILED
    ensures ScoredCount(u, Burst(e, f)) == MAX_FAILED * e + f
    ensures After(u, Burst(e, f)) == AfterBurst(u, e, f)
    decreases e, f
  {
    hide LockExempt, Judged, AfterBurst, RoundStart;
    if f > 0 {
      AllJudged(u, e, f - 1);
      var run, init := Burst(e, f), Burst(e, f - 1);
      assert run[..|run| - 1] == init;
      NextIsJudged(u, e, f);
    } else if e > 0 {
      AllJudged(u, e - 1, MAX_FAILED);
      RoundsJoin(u, e);
    } else {
      RoundsJoin(u, e);
    }
  }

  lemma RoundsJoin(u: User, e: nat)
    requires Fresh(u)
    ensures if e > 0 then AfterBurst(u, e, 0) == AfterBurst(u, e - 1, MAX_FAILED) else AfterBurst(u, e, 0) == u
  {
  }
}
