/**
 * The dashboard's saver handlers and the predicates that decide which saver buttons are
 * offered (app/page.tsx). The handlers change the document and today's log in place and then
 * save the document to the store; the notification id, the current instant and the save's
 * time stamp are parameters.
 */
module Dashboard {
  import opened Wrappers
  import opened Types
  import opened Streak
  import opened Formatters
  import opened InAppNotifications
  import opened Storage

  const StreakSaverTitle: string := "Streak Saver Used! \U{1F6E1}\U{FE0F}"
  const StreakSaverMessage: string := "Your streak is safe! Keep up the great work tomorrow."
  const BacklogRedeemedTitle: string := "Backlog Redeemed! \U{23F0}"

  function BacklogRedeemedMessage(toUse: int): string {
    "Applied " + FormatMinutes(toUse) + " to today's progress!"
  }

  /** `remaining`: the minutes still missing from today's goal. */
  function Remaining(log: DailyLog): (r: nat)
    reads log
    ensures r > 0 <==> !IsGoalMet(log.productiveMinutes, log.goalMinutes)
    ensures !IsGoalMet(log.productiveMinutes, log.goalMinutes) ==> log.productiveMinutes + r == log.goalMinutes
    ensures log.productiveMinutes + r >= log.goalMinutes
    ensures r <= log.goalMinutes
  {
    if log.goalMinutes - log.productiveMinutes > 0 then log.goalMinutes - log.productiveMinutes else 0
  }

  /** The streak-saver button is offered on an unmet day with a saver in hand and none used yet. */
  function CanUseStreakSaver(data: AppData, log: DailyLog): (offered: bool)
    reads data, log
    ensures offered ==> !IsGoalMet(log.productiveMinutes, log.goalMinutes) && data.streakData.streakSavers > 0
    ensures offered ==> !log.streakSaverUsed
  {
    !IsGoalMet(log.productiveMinutes, log.goalMinutes) && data.streakData.streakSavers > 0 && !log.streakSaverUsed
  }

  /** The backlog-saver button is offered while minutes are missing and the balance is positive. */
  function CanUseBacklogSaver(data: AppData, log: DailyLog): (offered: bool)
    reads data, log
    ensures offered <==> !IsGoalMet(log.productiveMinutes, log.goalMinutes) && data.streakData.backlogSavers > 0
  {
    Remaining(log) > 0 && data.streakData.backlogSavers > 0
  }

  /** `toUse`: the request clamped to the deficit and to the balance. */
  function BacklogToUse(requested: nat, deficit: nat, balance: nat): (toUse: nat)
    ensures toUse <= requested && toUse <= deficit && toUse <= balance
    ensures toUse == requested || toUse == deficit || toUse == balance
  {
    var m := if requested <= deficit then requested else deficit;
    if m <= balance then m else balance
  }

  /** When the button is offered, any positive request moves today's minutes, and never past the goal. */
  lemma OfferedBacklogSaverMakesProgress(data: AppData, log: DailyLog, requested: nat)
    requires CanUseBacklogSaver(data, log) && requested > 0
    ensures 0 < BacklogToUse(requested, Remaining(log), data.streakData.backlogSavers)
    ensures log.productiveMinutes + BacklogToUse(requested, Remaining(log), data.streakData.backlogSavers) <= log.goalMinutes
  {
  }

  /** The streak-saver button is offered exactly when the handler would spend a saver on a day
      that would not otherwise qualify. */
  lemma OfferedStreakSaverIsSpendable(data: AppData, log: DailyLog)
    ensures CanUseStreakSaver(data, log) <==>
              data.streakData.streakSavers > 0 && !DayQualifies(log)
  {
  }

  /** handleUseStreakSaver: spend a saver on today, re-evaluate the streak, notify, and save. */
  method HandleUseStreakSaver(store: Store, data: AppData, todayLog: DailyLog, noteId: string, now: int, stamp: string)
    returns (applied: bool)
    modifies store, data`streakData, data`notifications, data`lastUpdated, todayLog`streakSaverUsed
    ensures applied <==> old(data.streakData.streakSavers) > 0
    ensures !applied ==> data.streakData == old(data.streakData) && data.notifications == old(data.notifications)
    ensures !applied ==> todayLog.streakSaverUsed == old(todayLog.streakSaverUsed)
    ensures !applied ==> unchanged(store) && data.lastUpdated == old(data.lastUpdated)
    ensures applied ==> store.saved == Some(Serialize(data)) && data.lastUpdated == stamp
    ensures applied ==> todayLog.streakSaverUsed
    ensures applied ==> (data.streakData ==
              NextStreak(old(data.streakData).(streakSavers := old(data.streakData.streakSavers) - 1), true, todayLog.date))
    ensures applied ==> (data.notifications ==
              Some(Prepend(ListOf(old(data.notifications)),
                           Notification(noteId, Success, StreakSaverTitle, StreakSaverMessage, now, false, None))))
  {
    if data.streakData.streakSavers <= 0 {
      return false;
    }
    todayLog.streakSaverUsed := true;
    data.streakData := data.streakData.(streakSavers := data.streakData.streakSavers - 1);
    UpdateStreakStatus(data, todayLog);
    AddNotification(data, Success, StreakSaverTitle, StreakSaverMessage, None, noteId, now);
    SaveAppData(store, data, stamp);
    return true;
  }

  /** handleUseBacklogSaver: credit the clamped amount to today's productive minutes, recompute
      the free time, re-evaluate the streak, notify, and save. The backlog itself is left as it was. */
  method HandleUseBacklogSaver(store: Store, data: AppData, todayLog: DailyLog, requested: nat,
                               noteId: string, now: int, stamp: string)
    returns (applied: bool)
    modifies store, data`streakData, data`notifications, data`lastUpdated
    modifies todayLog`backlogSaversUsed, todayLog`productiveMinutes, todayLog`freeTimeEarned
    ensures applied <==> old(data.streakData.backlogSavers) >= requested
    ensures todayLog.backlogMinutes == old(todayLog.backlogMinutes)
    ensures !applied ==> data.streakData == old(data.streakData) && data.notifications == old(data.notifications)
    ensures !applied ==> todayLog.productiveMinutes == old(todayLog.productiveMinutes)
    ensures !applied ==> todayLog.backlogSaversUsed == old(todayLog.backlogSaversUsed)
    ensures !applied ==> todayLog.freeTimeEarned == old(todayLog.freeTimeEarned)
    ensures !applied ==> unchanged(store) && data.lastUpdated == old(data.lastUpdated)
    ensures applied ==> store.saved == Some(Serialize(data)) && data.lastUpdated == stamp
    ensures applied ==>
              var toUse := BacklogToUse(requested, old(Remaining(todayLog)), old(data.streakData.backlogSavers));
              && todayLog.productiveMinutes == old(todayLog.productiveMinutes) + toUse
              && todayLog.backlogSaversUsed == old(todayLog.backlogSaversUsed) + toUse
              && todayLog.freeTimeEarned == FreeTimeReward(todayLog.productiveMinutes)
              && data.streakData ==
                   NextStreak(old(data.streakData).(backlogSavers := old(data.streakData.backlogSavers) - toUse),
                              DayQualifies(todayLog), todayLog.date)
              && data.notifications ==
                   Some(Prepend(ListOf(old(data.notifications)),
                                Notification(noteId, Success, BacklogRedeemedTitle, BacklogRedeemedMessage(toUse), now, false, None)))
  {
    if data.streakData.backlogSavers < requested {
      return false;
    }

    var deficit := if todayLog.goalMinutes - todayLog.productiveMinutes > 0
                   then todayLog.goalMinutes - todayLog.productiveMinutes else 0;
    var toUse := BacklogToUse(requested, deficit, data.streakData.backlogSavers);

    data.streakData := data.streakData.(backlogSavers := data.streakData.backlogSavers - toUse);
    todayLog.backlogSaversUsed := todayLog.backlogSaversUsed + toUse;
    todayLog.productiveMinutes := todayLog.productiveMinutes + toUse;

    todayLog.freeTimeEarned := CalculateFreeTimeRewards(todayLog.productiveMinutes);
    UpdateStreakStatus(data, todayLog);

    AddNotification(data, Success, BacklogRedeemedTitle, BacklogRedeemedMessage(toUse), None, noteId, now);
    SaveAppData(store, data, stamp);
    return true;
  }
}
