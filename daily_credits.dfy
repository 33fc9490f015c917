/**
 * The daily sub-balance: once per local calendar day, the first request that
 * looks at a user refills `dailyCredits` to a fixed limit.
 */
module DailyCredits {
  import opened Schema

  const DAILY_LIMIT := 20

  /** Two instants fall on the same local calendar date: year, month and day
      agree; the time of day plays no part. */
  predicate SameDay(a: Instant, b: Instant): (r: bool)
    ensures r <==> a.date == b.date
  {
    && a.date.year == b.date.year
    && a.date.month == b.date.month
    && a.date.day == b.date.day
  }

  /** The user as the reset check leaves it at instant `now`. */
  function ResetIfNewDay(u: User, now: Instant): (r: User)
    ensures r.credits == u.credits && r.profile == u.profile
    ensures r == u || (r.dailyCredits == DAILY_LIMIT && r.lastCreditReset == now)
    ensures SameDay(r.lastCreditReset, now)
  {
    if SameDay(now, u.lastCreditReset) then u
    else u.(dailyCredits := DAILY_LIMIT, lastCreditReset := now)
  }

  /** The user table after the reset check for `uid` at `now`. */
  function ResetStored(users: map<UserId, User>, uid: UserId, now: Instant): map<UserId, User> {
    if uid in users then users[uid := ResetIfNewDay(users[uid], now)] else users
  }

  /** Loads the user, refills the daily balance on a new calendar day and
      returns the user as stored afterwards; a missing user gives None. */
  method CheckAndResetDailyCredits(db: Db, uid: UserId, now: Instant) returns (user: Option<User>)
    modifies db`users
    ensures uid !in old(db.users) ==> user == None && db.users == old(db.users)
    ensures uid in old(db.users) ==>
              && user == Some(ResetIfNewDay(old(db.users)[uid], now))
              && db.users == old(db.users)[uid := user.value]
    ensures db.users == ResetStored(old(db.users), uid, now)
  {
    if uid !in db.users {
      return None;
    }
    var stored := db.users[uid];
    var isSameDay := SameDay(now, stored.lastCreditReset);
    if !isSameDay {
      var updated := stored.(dailyCredits := DAILY_LIMIT, lastCreditReset := now);
      db.users := db.users[uid := updated];
      return Some(updated);
    }
    return Some(stored);
  }

  /** The reset never touches the total balance or the profile; it either
      leaves the user as it was or sets exactly the daily balance and the
      reset stamp. */
  lemma ResetTouchesOnlyDailyFields(u: User, now: Instant)
    ensures ResetIfNewDay(u, now).credits == u.credits
    ensures ResetIfNewDay(u, now).profile == u.profile
    ensures SameDay(now, u.lastCreditReset) ==> ResetIfNewDay(u, now) == u
    ensures !SameDay(now, u.lastCreditReset) ==>
              ResetIfNewDay(u, now) == u.(dailyCredits := DAILY_LIMIT, lastCreditReset := now)
  {
  }

  /** After the check the stored stamp lies on the date of `now`. */
  lemma ResetStampsToday(u: User, now: Instant)
    ensures SameDay(ResetIfNewDay(u, now).lastCreditReset, now)
  {
  }

  /** Calling the check a second time with the same `now` resets nothing more. */
  lemma ResetIdempotent(u: User, now: Instant)
    ensures ResetIfNewDay(ResetIfNewDay(u, now), now) == ResetIfNewDay(u, now)
  {
  }

  /** Only the calendar date matters: instants on the stored date, whatever
      their timestamps, leave the user unchanged. */
  lemma SameDateNeverResets(u: User, now: Instant)
    requires now.date == u.lastCreditReset.date
    ensures ResetIfNewDay(u, now) == u
  {
  }

  // ---------------------------------------------------------------------
  // Consecutive dates of the Gregorian calendar

  predicate IsLeapYear(y: int) {
    y % 4 == 0 && (y % 100 != 0 || y % 400 == 0)
  }

  function DaysInMonth(y: int, m: int): (n: int)
    requires 0 <= m < 12
    ensures 28 <= n <= 31
  {
    if m == 1 then (if IsLeapYear(y) then 29 else 28)
    else if m == 3 || m == 5 || m == 8 || m == 10 then 30
    else 31
  }

  predicate ValidDate(d: Date) {
    0 <= d.month < 12 && 1 <= d.day <= DaysInMonth(d.year, d.month)
  }

  /** Lexicographic order on (year, month, day). */
  predicate DateBefore(a: Date, b: Date) {
    a.year < b.year || (a.year == b.year && (a.month < b.month || (a.month == b.month && a.day < b.day)))
  }

  /** The calendar date that follows `d`. */
  function NextDate(d: Date): (r: Date)
    requires ValidDate(d)
    ensures ValidDate(r)
    ensures DateBefore(d, r)
  {
    if d.day < DaysInMonth(d.year, d.month) then Date(d.year, d.month, d.day + 1)
    else if d.month < 11 then Date(d.year, d.month + 1, 1)
    else Date(d.year + 1, 0, 1)
  }

  /** No valid date lies strictly between `d` and the date after it. */
  lemma NextDateIsImmediate(d: Date, e: Date)
    requires ValidDate(d) && ValidDate(e)
    ensures !(DateBefore(d, e) && DateBefore(e, NextDate(d)))
  {
  }

  /** A request on the calendar date after the last reset always refills the
      daily balance, however few hours separate the two instants. */
  lemma NextDateResets(u: User, now: Instant)
    requires ValidDate(u.lastCreditReset.date)
    requires now.date == NextDate(u.lastCreditReset.date)
    ensures ResetIfNewDay(u, now).dailyCredits == DAILY_LIMIT
    ensures ResetIfNewDay(u, now).lastCreditReset == now
    ensures ResetIfNewDay(u, now).credits == u.credits
  {
  }

  // ---------------------------------------------------------------------
  // Many requests on one day

  /** The user after successive reset checks at the instants `nows`. */
  function ApplyResets(u: User, nows: seq<Instant>): User
    decreases |nows|
  {
    if nows == [] then u else ApplyResets(ResetIfNewDay(u, nows[0]), nows[1..])
  }

  /** A user whose stamp already lies on the date of every instant is never reset. */
  lemma {:induction false} StampedUserStaysPut(v: User, nows: seq<Instant>)
    requires forall i :: 0 <= i < |nows| ==> SameDay(nows[i], v.lastCreditReset)
    ensures ApplyResets(v, nows) == v
    decreases |nows|
  {
    if nows != [] {
      assert SameDay(nows[0], v.lastCreditReset);
      assert forall i :: 0 <= i < |nows[1..]| ==> nows[1..][i] == nows[i + 1];
      StampedUserStaysPut(v, nows[1..]);
    }
  }

  /** Any number of reset checks on one calendar date perform at most one
      reset: together they act exactly as the first one does. */
  lemma {:induction false} AtMostOneResetPerDay(u: User, nows: seq<Instant>)
    requires |nows| > 0
    requires forall i :: 0 <= i < |nows| ==> nows[i].date == nows[0].date
    ensures ApplyResets(u, nows) == ResetIfNewDay(u, nows[0])
  {
    var v := ResetIfNewDay(u, nows[0]);
    ResetStampsToday(u, nows[0]);
    var rest := nows[1..];
    forall i | 0 <= i < |rest|
      ensures SameDay(rest[i], v.lastCreditReset)
    {
      assert rest[i] == nows[i + 1];
    }
    StampedUserStaysPut(v, rest);
  }
}
