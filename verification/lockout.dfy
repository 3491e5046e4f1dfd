/** The login lockout policy of controllers/auth/auth.go (Login), and the
    plain gate sequence of controllers/auth/user.auth.go (Login), as
    transitions on one user record at one instant `now`. The password
    comparison (bcrypt) has already been made: `passwordMatches` is its
    outcome against the stored hash. */
module Lockout {
  import opened Common
  import opened Models

  const MaxFailedAttempts: nat := 3
  const BlockDuration: int := OneMinute
  const DecayWindow: int := 15 * OneMinute

  /** What a login attempt ends in, once the user row was found. */
  datatype Outcome = EmailNotVerified | MobileNotVerified | TemporarilyBlocked | WrongPassword | Admitted

  predicate Verified(u: User)
  {
    u.isEmailVerified && u.isMobileVerified
  }

  /** IsBlocked && BlockedUntil != nil && BlockedUntil.After(now). */
  predicate IsBlockedAt(u: User, now: Time)
  {
    u.isBlocked && u.blockedUntil.Some? && now < u.blockedUntil.value
  }

  /** The last failure lies more than fifteen minutes back. */
  predicate FailuresDecayed(u: User, now: Time)
  {
    u.lastFailedLogin.Some? && now - u.lastFailedLogin.value > DecayWindow
  }

  /** `v` differs from `u` at most in the five lockout columns. */
  predicate OnlyLockoutChanged(u: User, v: User)
  {
    v == u.(failedLoginAttempts := v.failedLoginAttempts, lastFailedLogin := v.lastFailedLogin,
            isBlocked := v.isBlocked, blockedUntil := v.blockedUntil, lastLogin := v.lastLogin)
  }

  /** The failure count the password check starts from. */
  function StartingCount(u: User, now: Time): (n: nat)
    ensures n <= u.failedLoginAttempts
    ensures n == 0 <==> u.failedLoginAttempts == 0 || FailuresDecayed(u, now)
  {
    if FailuresDecayed(u, now) then 0 else u.failedLoginAttempts
  }

  /** One login attempt against user row `u`: the outcome and the row as
      saved afterwards. */
  function Attempt(u: User, passwordMatches: bool, now: Time): (r: (Outcome, User))
    ensures OnlyLockoutChanged(u, r.1)
    // the gates, in order, and the decision they take together
    ensures r.0 == EmailNotVerified <==> !u.isEmailVerified
    ensures r.0 == MobileNotVerified <==> u.isEmailVerified && !u.isMobileVerified
    ensures r.0 == TemporarilyBlocked <==> Verified(u) && IsBlockedAt(u, now)
    ensures r.0 == Admitted <==> Verified(u) && !IsBlockedAt(u, now) && passwordMatches
    // a denial before the password check touches nothing
    ensures r.0 in {EmailNotVerified, MobileNotVerified, TemporarilyBlocked} ==> r.1 == u
    // a wrong password counts, and blocks from the third failure on
    ensures r.0 == WrongPassword ==>
              && r.1.failedLoginAttempts == StartingCount(u, now) + 1
              && r.1.lastFailedLogin == Some(now)
              && r.1.lastLogin == u.lastLogin
              && (IsBlockedAt(r.1, now) <==> r.1.failedLoginAttempts >= MaxFailedAttempts)
              && (r.1.failedLoginAttempts >= MaxFailedAttempts ==>
                    r.1.isBlocked && r.1.blockedUntil == Some(now + BlockDuration))
              && (r.1.failedLoginAttempts < MaxFailedAttempts ==>
                    r.1.isBlocked == u.isBlocked && r.1.blockedUntil == u.blockedUntil)
    // success clears the count and the flag, but not BlockedUntil
    ensures r.0 == Admitted ==>
              && r.1.failedLoginAttempts == 0 && !r.1.isBlocked && r.1.lastLogin == now
              && r.1.blockedUntil == u.blockedUntil
              && r.1.lastFailedLogin == (if FailuresDecayed(u, now) then None else u.lastFailedLogin)
  {
    if !u.isEmailVerified then (EmailNotVerified, u)
    else if !u.isMobileVerified then (MobileNotVerified, u)
    else if IsBlockedAt(u, now) then (TemporarilyBlocked, u)
    else
      var d := if FailuresDecayed(u, now) then u.(failedLoginAttempts := 0, lastFailedLogin := None) else u;
      if !passwordMatches then
        var f := d.(failedLoginAttempts := d.failedLoginAttempts + 1, lastFailedLogin := Some(now));
        if f.failedLoginAttempts >= MaxFailedAttempts then
          (WrongPassword, f.(isBlocked := true, blockedUntil := Some(now + BlockDuration)))
        else (WrongPassword, f)
      else (Admitted, d.(lastLogin := now, failedLoginAttempts := 0, isBlocked := false))
  }

  /** The lockout columns agree with each other: a failure count implies a
      recorded failure, and from the third failure on the row is blocked
      for one minute from the last failure. */
  predicate LockoutConsistent(u: User)
  {
    && (u.isBlocked ==> u.blockedUntil.Some?)
    && (u.failedLoginAttempts > 0 ==> u.lastFailedLogin.Some?)
    && (u.failedLoginAttempts >= MaxFailedAttempts ==>
          u.isBlocked && u.lastFailedLogin.Some?
          && u.blockedUntil == Some(u.lastFailedLogin.value + BlockDuration))
  }

  lemma AttemptKeepsConsistent(u: User, passwordMatches: bool, now: Time)
    requires LockoutConsistent(u)
    ensures LockoutConsistent(Attempt(u, passwordMatches, now).1)
  {
  }

  /** A sequence of login attempts against one row: each step is the
      comparison's outcome and the instant of the attempt. */
  function Replay(u: User, attempts: seq<(bool, Time)>): (v: User)
    ensures OnlyLockoutChanged(u, v)
    decreases |attempts|
  {
    if attempts == [] then u
    else Replay(Attempt(u, attempts[0].0, attempts[0].1).1, attempts[1..])
  }

  /** No sequence of attempts breaks the agreement of the lockout columns. */
  lemma {:induction false} ReplayKeepsConsistent(u: User, attempts: seq<(bool, Time)>)
    requires LockoutConsistent(u)
    ensures LockoutConsistent(Replay(u, attempts))
    decreases |attempts|
  {
    if attempts != [] {
      AttemptKeepsConsistent(u, attempts[0].0, attempts[0].1);
      ReplayKeepsConsistent(Attempt(u, attempts[0].0, attempts[0].1).1, attempts[1..]);
    }
  }

  /** With the columns in agreement, three recorded failures keep the
      account closed for a minute after the last one, whatever password
      is offered. */
  lemma CountedFailuresBlock(u: User, passwordMatches: bool, now: Time)
    requires LockoutConsistent(u) && Verified(u)
    requires u.failedLoginAttempts >= MaxFailedAttempts
    requires now < u.lastFailedLogin.value + BlockDuration
    ensures Attempt(u, passwordMatches, now) == (TemporarilyBlocked, u)
  {
  }

  /** Three wrong passwords, each within fifteen minutes of the previous
      one, block the account for one minute after the third; during that
      minute the right password is refused, and from its end on it is
      accepted and clears the count. */
  lemma ThreeStrikes(u: User, t1: Time, t2: Time, t3: Time, t4: Time)
    requires Verified(u) && !IsBlockedAt(u, t1)
    requires u.failedLoginAttempts == 0
    requires t1 <= t2 <= t3 <= t4 && t2 - t1 <= DecayWindow && t3 - t2 <= DecayWindow
    ensures var a1 := Attempt(u, false, t1);
            var a2 := Attempt(a1.1, false, t2);
            var a3 := Attempt(a2.1, false, t3);
            && a1.0 == WrongPassword && a2.0 == WrongPassword && a3.0 == WrongPassword
            && a3.1.failedLoginAttempts == 3
            && a3.1.blockedUntil == Some(t3 + BlockDuration)
            && (t4 < t3 + BlockDuration ==> Attempt(a3.1, true, t4).0 == TemporarilyBlocked)
            && (t4 >= t3 + BlockDuration ==>
                  Attempt(a3.1, true, t4).0 == Admitted
                  && Attempt(a3.1, true, t4).1.failedLoginAttempts == 0)
  {
    var a1 := Attempt(u, false, t1);
    assert a1.1.failedLoginAttempts == 1 && a1.1.lastFailedLogin == Some(t1);
    assert !IsBlockedAt(a1.1, t2);
    var a2 := Attempt(a1.1, false, t2);
    assert a2.1.failedLoginAttempts == 2 && a2.1.lastFailedLogin == Some(t2);
    assert !IsBlockedAt(a2.1, t3);
    var a3 := Attempt(a2.1, false, t3);
    assert a3.1.failedLoginAttempts == 3;
  }

  /** Once the block has run out but the failures have not decayed, a
      single further wrong password blocks the account again. */
  lemma ReblockWithinWindow(u: User, now: Time)
    requires LockoutConsistent(u) && Verified(u)
    requires u.failedLoginAttempts >= MaxFailedAttempts
    requires u.lastFailedLogin.value + BlockDuration <= now <= u.lastFailedLogin.value + DecayWindow
    ensures Attempt(u, false, now).0 == WrongPassword
    ensures Attempt(u, false, now).1.failedLoginAttempts == u.failedLoginAttempts + 1
    ensures IsBlockedAt(Attempt(u, false, now).1, now)
  {
  }

  /** After fifteen quiet minutes a wrong password counts from one again,
      and does not block. */
  lemma DecayForgivesFailures(u: User, now: Time)
    requires LockoutConsistent(u) && Verified(u)
    requires u.failedLoginAttempts > 0 && now > u.lastFailedLogin.value + DecayWindow
    requires !IsBlockedAt(u, now)
    ensures Attempt(u, false, now).0 == WrongPassword
    ensures Attempt(u, false, now).1.failedLoginAttempts == 1
    ensures !IsBlockedAt(Attempt(u, false, now).1, now)
  {
  }

  /** The gate sequence of controllers/auth/user.auth.go: the same two
      verification gates, no block, no counting. */
  function PlainAttempt(u: User, passwordMatches: bool, now: Time): (r: (Outcome, User))
    ensures r.0 != TemporarilyBlocked
    ensures r.0 == EmailNotVerified <==> !u.isEmailVerified
    ensures r.0 == MobileNotVerified <==> u.isEmailVerified && !u.isMobileVerified
    ensures r.0 == Admitted <==> Verified(u) && passwordMatches
    ensures r.0 != Admitted ==> r.1 == u
    ensures r.0 == Admitted ==> r.1 == u.(lastLogin := now)
  {
    if !u.isEmailVerified then (EmailNotVerified, u)
    else if !u.isMobileVerified then (MobileNotVerified, u)
    else if !passwordMatches then (WrongPassword, u)
    else (Admitted, u.(lastLogin := now))
  }

  /** Without the lockout, no number of wrong passwords keeps out the right
      one: the plain login is stateless apart from LastLogin. */
  lemma {:induction false} PlainFailuresLeaveNoTrace(u: User, attempts: seq<Time>, now: Time)
    requires Verified(u)
    ensures PlainReplay(u, attempts) == u
    ensures PlainAttempt(PlainReplay(u, attempts), true, now).0 == Admitted
  {
    if attempts != [] {
      PlainFailuresLeaveNoTrace(u, attempts[1..], now);
    }
  }

  /** Wrong passwords offered at the given instants. */
  function PlainReplay(u: User, failures: seq<Time>): User
    decreases |failures|
  {
    if failures == [] then u
    else PlainReplay(PlainAttempt(u, false, failures[0]).1, failures[1..])
  }
}
