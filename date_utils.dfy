/** The past-date test of src/utils.ts. */
module DateUtils {
  import opened Types
  import opened Calendar

  /** `isDateInPast(date)` evaluated at local time `now`: `date` compared with
      today's midnight. An Invalid Date compares false with everything. The date
      is in the past exactly when its day comes before today. */
  predicate IsDateInPast(date: JsDate, now: int): (b: bool)
    ensures b <==> date.Time? && DayNumber(date.ms) < DayNumber(now)
  {
    match date
    case Time(t) => t < StartOfDay(now)
    case InvalidDate => false
  }

  /** A date is in the past exactly when it lies before the midnight that starts
      today, whichever way that midnight is characterised. */
  lemma PastIffBeforeMidnight(t: int, now: int, midnight: int)
    requires midnight % MsPerDay == 0 && midnight <= now < midnight + MsPerDay
    ensures IsDateInPast(Time(t), now) <==> t < midnight
  {
    StartOfDayUnique(now, midnight);
  }

  /** In the past means: earlier than now and on another calendar day. */
  lemma PastIffEarlierDay(t: int, now: int)
    ensures IsDateInPast(Time(t), now) <==> t < now && Civil(t) != Civil(now)
  {
    SameCivilIffSameStart(t, now);
    if StartOfDay(now) <= t <= now {
      StartOfDayUnique(t, StartOfDay(now));
    }
  }

  /** Any moment of today, the hours before now included, is not in the past. */
  lemma TodayIsNotPast(t: int, now: int)
    requires Civil(t) == Civil(now)
    ensures !IsDateInPast(Time(t), now)
  {
    SameCivilIffSameStart(t, now);
  }

  /** A later date is never more in the past than an earlier one. */
  lemma NotPastIsUpwardClosed(t1: int, t2: int, now: int)
    requires t1 <= t2 && !IsDateInPast(Time(t1), now)
    ensures !IsDateInPast(Time(t2), now)
  {
  }

  /** The answer depends on today's date only, not on the time of day. */
  lemma TimeOfDayIrrelevant(date: JsDate, now1: int, now2: int)
    requires Civil(now1) == Civil(now2)
    ensures IsDateInPast(date, now1) == IsDateInPast(date, now2)
  {
    SameCivilIffSameStart(now1, now2);
  }
}
