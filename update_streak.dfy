/** The daily streak (src/helpers/updateStreak.ts): `updateStreak` counts one more day of
    activity, and the nightly `resetStreaksDaily` zeroes the streak of every user whose
    last update is more than one calendar day old. Calendar days are UTC day numbers. */
module Streaks {
  import opened Wrappers
  import opened Calendar
  import opened UserModel

  /** `updateStreak`'s new streak: a streak never updated starts at 1, any other one grows
      by 1, whenever it was last updated. */
  function Bumped(s: Streak, now: int): (r: Streak)
    ensures r.updatedAt == Some(now)
    ensures r.number == if s.updatedAt.None? then 1 else s.number + 1
  {
    if s.updatedAt.None? then Streak(1, Some(now)) else Streak(s.number + 1, Some(now))
  }

  /** Whether the nightly job resets a streak: it was updated, and more than one calendar
      day lies between that update and `now`. */
  predicate Lapsed(s: Streak, now: int) {
    s.updatedAt.Some? && DayOf(now) - DayOf(s.updatedAt.value) > 1
  }

  /** The nightly job's new streak. */
  function Reset(s: Streak, now: int): (r: Streak)
    ensures Lapsed(s, now) ==> r == Streak(0, Some(now))
    ensures !Lapsed(s, now) ==> r == s
  {
    if Lapsed(s, now) then Streak(0, Some(now)) else s
  }

  const StreakSaveFailed := "Failed to update user streak."

  /** `updateStreak(user)`: changes the streak in memory, then saves, which fails when the
      e-mail is invalid; the failure is rethrown with a fixed message. */
  method UpdateStreak(user: User, now: int) returns (r: Result<()>)
    modifies user`streak
    ensures user.streak == Bumped(old(user.streak), now)
    ensures r.Ok? <==> PreSave(user.email).Ok?
    ensures r.Err? ==> r.message == StreakSaveFailed && r.status.None?
  {
    user.streak := Bumped(user.streak, now);
    var saved := PreSave(user.email);
    if saved.Err? {
      return Err(StreakSaveFailed, None);
    }
    return Ok(());
  }

  /** Whether the nightly job stops at a user: it resets the streak and the save fails. */
  predicate SaveFails(s: Streak, email: string, now: int) {
    Lapsed(s, now) && PreSave(email).Err?
  }

  /** `resetStreaksDaily` over the stored users, in order. A failing save ends the whole
      job (the error is caught outside the loop and only logged); the streak of the user
      whose save failed is already changed in memory. `processed` counts the users the
      loop reached. */
  method ResetStreaksDaily(users: seq<User>, now: int) returns (ghost processed: nat)
    requires forall i, j :: 0 <= i < j < |users| ==> users[i] != users[j]
    modifies (set u | u in users)`streak
    ensures processed <= |users|
    ensures forall i :: 0 <= i < |users| ==>
      users[i].streak == if i < processed then Reset(old(users[i].streak), now) else old(users[i].streak)
    ensures forall i :: 0 <= i < processed - 1 ==> !SaveFails(old(users[i].streak), users[i].email, now)
    ensures processed < |users| ==> 0 < processed && SaveFails(old(users[processed - 1].streak), users[processed - 1].email, now)
  {
    var i := 0;
    while i < |users|
      invariant 0 <= i <= |users|
      invariant forall j :: 0 <= j < |users| ==>
        users[j].streak == if j < i then Reset(old(users[j].streak), now) else old(users[j].streak)
      invariant forall j :: 0 <= j < i ==> !SaveFails(old(users[j].streak), users[j].email, now)
    {
      var user := users[i];
      if Lapsed(user.streak, now) {
        user.streak := Streak(0, Some(now));
        var saved := PreSave(user.email);
        if saved.Err? {
          return i + 1;
        }
      }
      i := i + 1;
    }
    return i;
  }

  // ---------------------------------------------------------------------------
  // Properties

  /** The nightly reset is idempotent within a day: a second run on the same calendar
      day changes nothing. */
  lemma ResetIdempotent(s: Streak, now: int, later: int)
    requires DayOf(later) == DayOf(now)
    ensures Reset(Reset(s, now), later) == Reset(s, now)
  {
  }

  /** A streak updated today or yesterday survives the night; one updated earlier is
      zeroed; one never updated is left alone. */
  lemma ResetKeepsRecentStreaks(s: Streak, now: int)
    ensures s.updatedAt.Some? && DayOf(now) - DayOf(s.updatedAt.value) <= 1 ==> Reset(s, now) == s
    ensures s.updatedAt.Some? && DayOf(now) - DayOf(s.updatedAt.value) >= 2 ==> Reset(s, now).number == 0
    ensures s.updatedAt.None? ==> Reset(s, now) == s
  {
  }

  /** Two updates add two, even within one day: nothing stops a second count on the same
      day. */
  lemma {:induction false} BumpsAccumulate(s: Streak, times: seq<int>)
    requires s.updatedAt.Some?
    ensures BumpAll(s, times).number == s.number + |times|
    ensures |times| > 0 ==> BumpAll(s, times).updatedAt == Some(times[|times| - 1])
  {
    if times != [] {
      BumpsAccumulate(s, times[..|times| - 1]);
      BumpAllKeepsDate(s, times[..|times| - 1]);
    }
  }

  /** `Bumped` applied at each of `times`, in order. */
  function BumpAll(s: Streak, times: seq<int>): Streak {
    if times == [] then s else Bumped(BumpAll(s, times[..|times| - 1]), times[|times| - 1])
  }

  lemma {:induction false} BumpAllKeepsDate(s: Streak, times: seq<int>)
    requires s.updatedAt.Some?
    ensures BumpAll(s, times).updatedAt.Some?
  {
    if times != [] {
      BumpAllKeepsDate(s, times[..|times| - 1]);
    }
  }

  /** An update after a reset starts the count over at 1. */
  lemma UpdateAfterResetStartsAtOne(s: Streak, night: int, now: int)
    requires Lapsed(s, night)
    ensures Bumped(Reset(s, night), now).number == 1
  {
  }

  /** A streak updated on some day survives a night job run on that day or the next: a
      lapse needs more than one calendar day without an update. */
  lemma NoResetWithinADay(s: Streak, now: int, later: int)
    requires DayOf(later) - DayOf(now) <= 1
    ensures Reset(Bumped(s, now), later) == Bumped(s, now)
  {
  }
}
