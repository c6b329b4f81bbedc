/**
 * Streak and reward rules (lib/streak.ts): the free-time reward scan, the daily goal and
 * backlog helpers, the streak state machine run after every session and saver use, the
 * two saver withdrawals, and the next-milestone projection.
 */
module Streak {
  import opened Wrappers
  import opened Types

  // ---------------------------------------------------------------- free-time rewards

  /** `productiveMinutes / 60 >= tier.hours`, stated on whole minutes. */
  predicate TierMet(tier: RewardTier, productiveMinutes: int) {
    productiveMinutes >= 60 * tier.hours
  }

  /** The cumulative reward of the last tier of `tiers` that is met, or 0 when none is. */
  function LastMetCumulative(tiers: seq<RewardTier>, productiveMinutes: int): nat
    decreases |tiers|
  {
    if tiers == [] then 0
    else if TierMet(tiers[|tiers| - 1], productiveMinutes) then tiers[|tiers| - 1].cumulative
    else LastMetCumulative(tiers[..|tiers| - 1], productiveMinutes)
  }

  /** The free time a day with `productiveMinutes` earns. */
  function FreeTimeReward(productiveMinutes: int): nat {
    LastMetCumulative(RewardTiers, productiveMinutes)
  }

  /** calculateFreeTimeRewards: scan the tiers in order, keeping the last one met. */
  method CalculateFreeTimeRewards(productiveMinutes: int) returns (totalFreeTime: nat)
    ensures totalFreeTime == FreeTimeReward(productiveMinutes)
  {
    totalFreeTime := 0;
    var i := 0;
    while i < |RewardTiers|
      invariant 0 <= i <= |RewardTiers|
      invariant totalFreeTime == LastMetCumulative(RewardTiers[..i], productiveMinutes)
    {
      var tier := RewardTiers[i];
      assert RewardTiers[..i + 1][..i] == RewardTiers[..i];
      if productiveMinutes >= 60 * tier.hours {
        totalFreeTime := tier.cumulative;
      }
      i := i + 1;
    }
    assert RewardTiers[..i] == RewardTiers;
  }

  /** With cumulative rewards ascending, "the last tier met" is "the best tier met". */
  lemma {:induction false} LastMetIsHighestMet(tiers: seq<RewardTier>, productiveMinutes: int)
    requires StrictlyAscending(tiers)
    ensures forall j :: 0 <= j < |tiers| && TierMet(tiers[j], productiveMinutes) ==>
              tiers[j].cumulative <= LastMetCumulative(tiers, productiveMinutes)
    ensures LastMetCumulative(tiers, productiveMinutes) == 0 ||
            exists i :: 0 <= i < |tiers| && TierMet(tiers[i], productiveMinutes) &&
                        tiers[i].cumulative == LastMetCumulative(tiers, productiveMinutes)
    decreases |tiers|
  {
    if tiers != [] {
      var n := |tiers| - 1;
      var prefix := tiers[..n];
      if !TierMet(tiers[n], productiveMinutes) {
        LastMetIsHighestMet(prefix, productiveMinutes);
        var r := LastMetCumulative(tiers, productiveMinutes);
        forall j | 0 <= j < |tiers| && TierMet(tiers[j], productiveMinutes)
          ensures tiers[j].cumulative <= r
        {
          assert j < n && tiers[j] == prefix[j];
        }
        if r != 0 {
          var i :| 0 <= i < |prefix| && TierMet(prefix[i], productiveMinutes) && prefix[i].cumulative == r;
          assert tiers[i] == prefix[i];
        }
      }
    }
  }

  /** More productive minutes never earn less free time. */
  lemma LastMetMonotone(tiers: seq<RewardTier>, a: int, b: int)
    requires StrictlyAscending(tiers)
    requires a <= b
    ensures LastMetCumulative(tiers, a) <= LastMetCumulative(tiers, b)
  {
    LastMetIsHighestMet(tiers, a);
    LastMetIsHighestMet(tiers, b);
  }

  lemma FreeTimeRewardMonotone(a: int, b: int)
    requires a <= b
    ensures FreeTimeReward(a) <= FreeTimeReward(b)
  {
    RewardTiersWellFormed();
    LastMetMonotone(RewardTiers, a, b);
  }

  /** The reward for every range of productive minutes. */
  lemma FreeTimeRewardTable(m: int)
    ensures m < 120 ==> FreeTimeReward(m) == 0
    ensures 120 <= m < 240 ==> FreeTimeReward(m) == 15
    ensures 240 <= m < 360 ==> FreeTimeReward(m) == 35
    ensures 360 <= m < 480 ==> FreeTimeReward(m) == 65
    ensures 480 <= m ==> FreeTimeReward(m) == 105
    ensures FreeTimeReward(m) in {0, 15, 35, 65, 105}
  {
    var t := RewardTiers;
    var p1, p2, p3 := t[..1], t[..2], t[..3];
    assert p1[..0] == [] && p2[..1] == p1 && p3[..2] == p2 && t[..3] == p3;
    assert LastMetCumulative(p1, m) == if m >= 120 then 15 else 0;
    assert LastMetCumulative(p2, m) == if m >= 240 then 35 else LastMetCumulative(p1, m);
    assert LastMetCumulative(p3, m) == if m >= 360 then 65 else LastMetCumulative(p2, m);
    assert FreeTimeReward(m) == if m >= 480 then 105 else LastMetCumulative(p3, m);
  }

  // ---------------------------------------------------------------- goal and backlog

  /** calculateDailyGoal: the larger of yesterday's productive minutes and the commitment. */
  function CalculateDailyGoal(yesterdayLog: DailyLog?, initialCommitment: nat): (goal: nat)
    reads yesterdayLog
    ensures goal >= initialCommitment
    ensures yesterdayLog == null ==> goal == initialCommitment
    ensures yesterdayLog != null ==> goal >= yesterdayLog.productiveMinutes
    ensures yesterdayLog != null ==> goal == yesterdayLog.productiveMinutes || goal == initialCommitment
  {
    if yesterdayLog == null then initialCommitment
    else if yesterdayLog.productiveMinutes >= initialCommitment then yesterdayLog.productiveMinutes
    else initialCommitment
  }

  /** isGoalMet: the day's goal is met exactly when it leaves no shortfall. */
  function IsGoalMet(productiveMinutes: int, goalMinutes: int): (met: bool)
    ensures met <==> CalculateBacklog(productiveMinutes, goalMinutes) == 0
  {
    productiveMinutes >= goalMinutes
  }

  /** calculateBacklog: what is still missing to reach the goal. */
  function CalculateBacklog(productiveMinutes: int, goalMinutes: int): (backlog: nat)
    ensures backlog == 0 <==> productiveMinutes >= goalMinutes
    ensures productiveMinutes < goalMinutes ==> productiveMinutes + backlog == goalMinutes
  {
    if productiveMinutes >= goalMinutes then 0 else goalMinutes - productiveMinutes
  }

  // ---------------------------------------------------------------- the streak ledger

  function Max(a: nat, b: nat): nat {
    if a >= b then a else b
  }

  /** The ledger's invariant: the current run is no longer than the longest, which is
      no longer than the number of qualifying days counted. */
  predicate ValidStreak(s: StreakData) {
    s.currentStreak <= s.longestStreak <= s.totalDays
  }

  /** A day counts toward the streak when its goal is met or a streak saver covers it. */
  function DayQualifies(log: DailyLog): (q: bool)
    reads log
    ensures q <==> CalculateBacklog(log.productiveMinutes, log.goalMinutes) == 0 || log.streakSaverUsed
  {
    IsGoalMet(log.productiveMinutes, log.goalMinutes) || log.streakSaverUsed
  }

  /** The ledger after one evaluation of a day (`date`) that does or does not qualify. */
  function NextStreak(s: StreakData, qualifies: bool, date: string): (r: StreakData)
    ensures ValidStreak(s) ==> ValidStreak(r)
    ensures r.longestStreak >= s.longestStreak && r.totalDays >= s.totalDays
    ensures r.streakSavers >= s.streakSavers && r.backlogSavers >= s.backlogSavers
  {
    if !qualifies then s.(currentStreak := 0)
    else
      var c := s.currentStreak + 1;
      var weekly := c % 7 == 0;
      var monthly := c % 30 == 0;
      s.(currentStreak := c,
         totalDays := s.totalDays + 1,
         longestStreak := Max(s.longestStreak, c),
         streakSavers := s.streakSavers + (if weekly then 1 else 0) + (if monthly then 2 else 0),
         backlogSavers := s.backlogSavers + (if monthly then 60 else 0),
         lastStreakSaverEarned := if weekly then Some(date) else s.lastStreakSaverEarned)
  }

  /** updateStreakStatus: evaluated anew on every call, with no per-day guard. */
  method UpdateStreakStatus(data: AppData, todayLog: DailyLog)
    modifies data`streakData
    ensures data.streakData == NextStreak(old(data.streakData), DayQualifies(todayLog), todayLog.date)
  {
    var goalMet := IsGoalMet(todayLog.productiveMinutes, todayLog.goalMinutes);
    if goalMet || todayLog.streakSaverUsed {
      data.streakData := data.streakData.(currentStreak := data.streakData.currentStreak + 1);
      data.streakData := data.streakData.(totalDays := data.streakData.totalDays + 1);
      if data.streakData.currentStreak > data.streakData.longestStreak {
        data.streakData := data.streakData.(longestStreak := data.streakData.currentStreak);
      }
      if data.streakData.currentStreak % 7 == 0 {
        data.streakData := data.streakData.(streakSavers := data.streakData.streakSavers + 1);
        data.streakData := data.streakData.(lastStreakSaverEarned := Some(todayLog.date));
      }
      if data.streakData.currentStreak % 30 == 0 {
        data.streakData := data.streakData.(backlogSavers := data.streakData.backlogSavers + 60);
        data.streakData := data.streakData.(streakSavers := data.streakData.streakSavers + 2);
      }
    } else {
      data.streakData := data.streakData.(currentStreak := 0);
    }
  }

  /** A qualifying day extends the run by one, counts one more day, raises the record if
      needed, and pays the weekly and monthly awards on their boundaries. */
  lemma QualifyingDayStep(s: StreakData, date: string)
    ensures NextStreak(s, true, date).currentStreak == s.currentStreak + 1
    ensures NextStreak(s, true, date).totalDays == s.totalDays + 1
    ensures NextStreak(s, true, date).longestStreak == Max(s.longestStreak, s.currentStreak + 1)
    ensures (s.currentStreak + 1) % 7 == 0 ==> NextStreak(s, true, date).lastStreakSaverEarned == Some(date)
    ensures (s.currentStreak + 1) % 7 != 0 ==>
              NextStreak(s, true, date).lastStreakSaverEarned == s.lastStreakSaverEarned
    ensures NextStreak(s, true, date).streakSavers ==
              s.streakSavers + (if (s.currentStreak + 1) % 7 == 0 then 1 else 0)
                             + (if (s.currentStreak + 1) % 30 == 0 then 2 else 0)
    ensures NextStreak(s, true, date).backlogSavers ==
              s.backlogSavers + (if (s.currentStreak + 1) % 30 == 0 then 60 else 0)
  {
  }

  /** A day that does not qualify resets the run and touches nothing else. */
  lemma BrokenDayStep(s: StreakData, date: string)
    ensures NextStreak(s, false, date) == s.(currentStreak := 0)
  {
  }

  /** The 30-day bonus is not capped: a full 450-minute balance goes to 510. */
  lemma MonthlyBonusBypassesCap(date: string)
    ensures var s := StreakData(29, 29, 29, 0, 450, None);
            ValidStreak(s) && NextStreak(s, true, date).backlogSavers == 510
  {
  }

  /** Two evaluations of the same qualifying day count it twice. */
  lemma RepeatedEvaluationCountsTwice(s: StreakData, date: string)
    ensures NextStreak(NextStreak(s, true, date), true, date).currentStreak == s.currentStreak + 2
    ensures NextStreak(NextStreak(s, true, date), true, date).totalDays == s.totalDays + 2
  {
  }

  /** One evaluation of the streak rule: whether the day qualified, and its date. */
  datatype Evaluation = Evaluation(qualifies: bool, date: string)

  /** The ledger after a sequence of evaluations, oldest first. */
  function Replay(s: StreakData, evals: seq<Evaluation>): StreakData
    decreases |evals|
  {
    if evals == [] then s
    else
      var last := evals[|evals| - 1];
      NextStreak(Replay(s, evals[..|evals| - 1]), last.qualifies, last.date)
  }

  function QualifyingCount(evals: seq<Evaluation>): nat
    decreases |evals|
  {
    if evals == [] then 0
    else QualifyingCount(evals[..|evals| - 1]) + (if evals[|evals| - 1].qualifies then 1 else 0)
  }

  /** The number of qualifying evaluations at the end of the sequence. */
  function TrailingRun(evals: seq<Evaluation>): nat
    decreases |evals|
  {
    if evals == [] || !evals[|evals| - 1].qualifies then 0 else TrailingRun(evals[..|evals| - 1]) + 1
  }

  /** Over any sequence of evaluations the ledger counts every qualifying one, its current
      streak is the run of qualifying evaluations at the end (added to the starting run
      when there was no failure), and the ledger invariant holds throughout. */
  lemma {:induction false} ReplayCounts(s: StreakData, evals: seq<Evaluation>)
    ensures Replay(s, evals).totalDays == s.totalDays + QualifyingCount(evals)
    ensures TrailingRun(evals) <= |evals|
    ensures Replay(s, evals).currentStreak ==
              if TrailingRun(evals) == |evals| then s.currentStreak + |evals| else TrailingRun(evals)
    ensures ValidStreak(s) ==> ValidStreak(Replay(s, evals))
    decreases |evals|
  {
    if evals != [] {
      ReplayCounts(s, evals[..|evals| - 1]);
    }
  }

  // ---------------------------------------------------------------- saver withdrawals

  /** useStreakSaver: spend one streak saver on today and re-evaluate the streak. */
  method UseStreakSaver(data: AppData, todayLog: DailyLog) returns (ok: bool)
    modifies data`streakData, todayLog`streakSaverUsed
    ensures ok <==> old(data.streakData.streakSavers) > 0
    ensures !ok ==> data.streakData == old(data.streakData) && todayLog.streakSaverUsed == old(todayLog.streakSaverUsed)
    ensures ok ==> todayLog.streakSaverUsed
    ensures ok ==> (data.streakData ==
              NextStreak(old(data.streakData).(streakSavers := old(data.streakData.streakSavers) - 1), true, todayLog.date))
  {
    if data.streakData.streakSavers <= 0 {
      return false;
    }
    data.streakData := data.streakData.(streakSavers := data.streakData.streakSavers - 1);
    todayLog.streakSaverUsed := true;
    UpdateStreakStatus(data, todayLog);
    return true;
  }

  /** useBacklogSavers: withdraw `minutesToRedeem` from the balance against today's backlog.
      It neither credits productive minutes nor re-evaluates the streak. */
  method UseBacklogSavers(data: AppData, todayLog: DailyLog, minutesToRedeem: nat) returns (ok: bool)
    modifies data`streakData, todayLog`backlogSaversUsed, todayLog`backlogMinutes
    ensures ok <==> old(data.streakData.backlogSavers) >= minutesToRedeem
    ensures !ok ==> data.streakData == old(data.streakData)
    ensures !ok ==> todayLog.backlogSaversUsed == old(todayLog.backlogSaversUsed)
    ensures !ok ==> todayLog.backlogMinutes == old(todayLog.backlogMinutes)
    ensures todayLog.productiveMinutes == old(todayLog.productiveMinutes)
    ensures ok ==> (data.streakData ==
              old(data.streakData).(backlogSavers := old(data.streakData.backlogSavers) - minutesToRedeem))
    ensures ok ==> todayLog.backlogSaversUsed == old(todayLog.backlogSaversUsed) + minutesToRedeem
    ensures ok ==> (todayLog.backlogMinutes ==
              if old(todayLog.backlogMinutes) >= minutesToRedeem then old(todayLog.backlogMinutes) - minutesToRedeem else 0)
  {
    if data.streakData.backlogSavers < minutesToRedeem {
      return false;
    }
    data.streakData := data.streakData.(backlogSavers := data.streakData.backlogSavers - minutesToRedeem);
    todayLog.backlogSaversUsed := todayLog.backlogSaversUsed + minutesToRedeem;
    todayLog.backlogMinutes := if todayLog.backlogMinutes - minutesToRedeem >= 0
                               then todayLog.backlogMinutes - minutesToRedeem else 0;
    return true;
  }

  // ---------------------------------------------------------------- milestones

  datatype MilestoneKind = Weekly | Monthly

  datatype MilestoneInfo = MilestoneInfo(kind: MilestoneKind, daysRemaining: nat, reward: string)

  const WeeklyReward: string := "+1 Streak Saver"
  const MonthlyReward: string := "+60min Backlog Saver + 2 Streak Savers"

  /** A streak length at which an award is paid. */
  predicate IsMilestoneDay(n: int) {
    n > 0 && (n % 7 == 0 || n % 30 == 0)
  }

  /** getNextMilestone: the nearer of the next weekly and the next monthly boundary, ties to weekly. */
  function GetNextMilestone(currentStreak: nat): (m: MilestoneInfo)
    ensures m.kind == Weekly ==> 1 <= m.daysRemaining <= 7 && (currentStreak + m.daysRemaining) % 7 == 0
    ensures m.kind == Monthly ==> 1 <= m.daysRemaining <= 30 && (currentStreak + m.daysRemaining) % 30 == 0
  {
    DaysToNextMultiple7(currentStreak);
    DaysToNextMultiple30(currentStreak);
    var daysUntilWeekly := 7 - currentStreak % 7;
    var daysUntilMonthly := 30 - currentStreak % 30;
    if daysUntilWeekly <= daysUntilMonthly then
      MilestoneInfo(Weekly, daysUntilWeekly, WeeklyReward)
    else
      MilestoneInfo(Monthly, daysUntilMonthly, MonthlyReward)
  }

  lemma DaysToNextMultiple7(c: nat)
    ensures 1 <= 7 - c % 7 <= 7 && (c + (7 - c % 7)) % 7 == 0
  {
  }

  lemma DaysToNextMultiple30(c: nat)
    ensures 1 <= 30 - c % 30 <= 30 && (c + (30 - c % 30)) % 30 == 0
  {
  }

  lemma NoWeeklyBefore(c: nat, n: int)
    requires c < n < c + (7 - c % 7)
    ensures n % 7 != 0
  {
  }

  lemma NoMonthlyBefore(c: nat, n: int)
    requires c < n < c + (30 - c % 30)
    ensures n % 30 != 0
  {
  }

  /** The milestone reported is the first streak length, after the current one, that pays an award. */
  lemma NextMilestoneIsNearest(currentStreak: nat)
    ensures var m := GetNextMilestone(currentStreak);
      && IsMilestoneDay(currentStreak + m.daysRemaining)
      && (m.kind == Monthly ==> (currentStreak + m.daysRemaining) % 7 != 0)
      && forall n :: currentStreak < n < currentStreak + m.daysRemaining ==> !IsMilestoneDay(n)
  {
    var m := GetNextMilestone(currentStreak);
    forall n | currentStreak < n < currentStreak + m.daysRemaining
      ensures !IsMilestoneDay(n)
    {
      NoWeeklyBefore(currentStreak, n);
      NoMonthlyBefore(currentStreak, n);
    }
    if m.kind == Monthly {
      NoWeeklyBefore(currentStreak, currentStreak + m.daysRemaining);
    }
  }
}
