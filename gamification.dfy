/**
 * The per-user gamification record: points, a daily-activity streak and
 * five badge flags. Calendar days are integer day numbers; "today" is a
 * parameter instead of a clock read.
 */
module Gamification {
  import opened Wrappers

  /** The three streak fields of a record: current streak, longest streak, last active day. */
  datatype Streak = Streak(current: int, longest: int, last: Option<int>)

  /**
   * The streak after activity on day `today`: the first activity starts a
   * streak of 1, activity on the same day changes nothing, activity on the
   * next day extends the streak (raising the longest one if it is passed),
   * and any other gap restarts the streak at 1.
   */
  function StreakAfter(s: Streak, today: int): (r: Streak)
    ensures r.last.Some? && r.longest >= s.longest
    ensures r == s || (r.last == Some(today) && (r.current == 1 || r.current == s.current + 1))
    ensures s.last.None? ==> r == Streak(1, s.longest, Some(today))
  {
    match s.last
    case None => Streak(1, s.longest, Some(today))
    case Some(day) =>
      if today - day == 0 then s
      else if today - day == 1 then
        Streak(s.current + 1, if s.current + 1 > s.longest then s.current + 1 else s.longest, Some(today))
      else Streak(1, s.longest, Some(today))
  }

  class Gamification {
    var totalPoints: int
    var currentStreak: int
    var longestStreak: int
    var lastActivityDate: Option<int>

    var predictionsCount: nat
    var checkupsCompleted: nat
    var dietPlansViewed: nat
    var chatbotInteractions: nat

    var badgeFirstPrediction: bool
    var badgeWeekStreak: bool
    var badgeHealthChampion: bool
    var badgeDietMaster: bool
    var badgeConsistencyKing: bool

    /**
     * What the streak and badge updates keep. The longest streak bounds
     * the current one except right after the very first activity, which
     * sets the current streak to 1 without touching the longest one.
     */
    ghost predicate StreakValid()
      reads this`currentStreak, this`longestStreak, this`lastActivityDate,
            this`badgeWeekStreak, this`badgeConsistencyKing
    {
      && 0 <= currentStreak
      && (lastActivityDate.None? <==> currentStreak == 0)
      && (currentStreak <= longestStreak || currentStreak == 1)
      && (currentStreak >= 7 ==> badgeWeekStreak)
      && (currentStreak >= 30 ==> badgeConsistencyKing)
    }

    function StreakOf(): Streak
      reads this`currentStreak, this`longestStreak, this`lastActivityDate
    {
      Streak(currentStreak, longestStreak, lastActivityDate)
    }

    /** A new record: everything zero, no activity yet, no badge. */
    constructor ()
      ensures StreakValid()
      ensures totalPoints == 0 && currentStreak == 0 && longestStreak == 0 && lastActivityDate == None
      ensures predictionsCount == 0 && checkupsCompleted == 0 && dietPlansViewed == 0 && chatbotInteractions == 0
      ensures !badgeFirstPrediction && !badgeWeekStreak && !badgeHealthChampion
      ensures !badgeDietMaster && !badgeConsistencyKing
    {
      totalPoints := 0;
      currentStreak := 0;
      longestStreak := 0;
      lastActivityDate := None;
      predictionsCount := 0;
      checkupsCompleted := 0;
      dietPlansViewed := 0;
      chatbotInteractions := 0;
      badgeFirstPrediction := false;
      badgeWeekStreak := false;
      badgeHealthChampion := false;
      badgeDietMaster := false;
      badgeConsistencyKing := false;
    }

    /** Adds exactly the given number of points; nothing else changes. */
    method AddPoints(points: int)
      modifies this`totalPoints
      ensures totalPoints == old(totalPoints) + points
    {
      totalPoints := totalPoints + points;
    }

    /**
     * Registers activity on day `today`. The first activity starts a
     * streak of 1; a second one on the same day changes nothing; one on
     * the next day extends the streak and may raise the longest streak;
     * any other gap, including a day in the past, restarts the streak at 1.
     * The week and consistency badges follow the new streak and are never
     * cleared.
     */
    method UpdateStreak(today: int)
      requires StreakValid()
      modifies this`currentStreak, this`longestStreak, this`lastActivityDate,
               this`badgeWeekStreak, this`badgeConsistencyKing
      ensures StreakValid()
      ensures old(lastActivityDate).None? ==>
        currentStreak == 1 && lastActivityDate == Some(today) && longestStreak == old(longestStreak)
      ensures old(lastActivityDate).Some? && today - old(lastActivityDate).value == 0 ==>
        currentStreak == old(currentStreak) && lastActivityDate == old(lastActivityDate)
        && longestStreak == old(longestStreak)
      ensures old(lastActivityDate).Some? && today - old(lastActivityDate).value == 1 ==>
        currentStreak == old(currentStreak) + 1 && lastActivityDate == Some(today)
        && longestStreak == (if old(currentStreak) + 1 > old(longestStreak) then old(currentStreak) + 1
                             else old(longestStreak))
      ensures old(lastActivityDate).Some? && today - old(lastActivityDate).value != 0
              && today - old(lastActivityDate).value != 1 ==>
        currentStreak == 1 && lastActivityDate == Some(today) && longestStreak == old(longestStreak)
      ensures longestStreak >= old(longestStreak)
      ensures StreakOf() == StreakAfter(old(StreakOf()), today)
      ensures badgeWeekStreak == (old(badgeWeekStreak) || currentStreak >= 7)
      ensures badgeConsistencyKing == (old(badgeConsistencyKing) || currentStreak >= 30)
    {
      if lastActivityDate.None? {
        currentStreak := 1;
        lastActivityDate := Some(today);
      } else {
        var daysDiff := today - lastActivityDate.value;
        if daysDiff == 0 {
        } else if daysDiff == 1 {
          currentStreak := currentStreak + 1;
          if currentStreak > longestStreak {
            longestStreak := currentStreak;
          }
          lastActivityDate := Some(today);
        } else {
          currentStreak := 1;
          lastActivityDate := Some(today);
        }
      }
      if currentStreak >= 7 && !badgeWeekStreak {
        badgeWeekStreak := true;
      }
      if currentStreak >= 30 && !badgeConsistencyKing {
        badgeConsistencyKing := true;
      }
    }

    /**
     * Awards the count-based badges: first prediction at one prediction,
     * health champion at ten, diet master at five viewed diet plans. No
     * badge is cleared and no counter changes.
     */
    method CheckAndAwardBadges()
      modifies this`badgeFirstPrediction, this`badgeHealthChampion, this`badgeDietMaster
      ensures badgeFirstPrediction == (old(badgeFirstPrediction) || predictionsCount >= 1)
      ensures badgeHealthChampion == (old(badgeHealthChampion) || predictionsCount >= 10)
      ensures badgeDietMaster == (old(badgeDietMaster) || dietPlansViewed >= 5)
    {
      if predictionsCount >= 1 && !badgeFirstPrediction {
        badgeFirstPrediction := true;
      }
      if predictionsCount >= 10 && !badgeHealthChampion {
        badgeHealthChampion := true;
      }
      if dietPlansViewed >= 5 && !badgeDietMaster {
        badgeDietMaster := true;
      }
    }

    /**
     * The bookkeeping after a prediction on day `today`: one more
     * prediction, the streak update, 20 points and the badge check.
     */
    method RecordPredictionActivity(today: int)
      requires StreakValid()
      modifies this
      ensures StreakValid()
      ensures predictionsCount == old(predictionsCount) + 1
      ensures totalPoints == old(totalPoints) + 20
      ensures StreakOf() == StreakAfter(old(StreakOf()), today)
      ensures longestStreak >= old(longestStreak)
      ensures badgeFirstPrediction
      ensures badgeHealthChampion == (old(badgeHealthChampion) || predictionsCount >= 10)
      ensures badgeDietMaster == (old(badgeDietMaster) || dietPlansViewed >= 5)
      ensures badgeWeekStreak == (old(badgeWeekStreak) || currentStreak >= 7)
      ensures badgeConsistencyKing == (old(badgeConsistencyKing) || currentStreak >= 30)
      ensures checkupsCompleted == old(checkupsCompleted) && dietPlansViewed == old(dietPlansViewed)
      ensures chatbotInteractions == old(chatbotInteractions)
    {
      predictionsCount := predictionsCount + 1;
      UpdateStreak(today);
      AddPoints(20);
      CheckAndAwardBadges();
    }
  }
}
