/** The schedule calculator (backend/services/schedule_service.py). */
module Schedules {
  import opened Settings

  /** The service keeps the read-only stage-interval table it was built from. */
  datatype ScheduleService = ScheduleService(stageIntervals: map<int, int>)

  /** `ScheduleService()`: takes its table from the default system configuration. */
  function NewScheduleService(): (s: ScheduleService)
    ensures s.stageIntervals == DefaultSystemConfig().schedule.stageIntervals
  {
    ScheduleService(DefaultSystemConfig().schedule.stageIntervals)
  }

  /**
   * `get_next_review_time`: `now` plus the interval of `stage`, or plus one day
   * when the table has no entry for it. `cardType` is accepted and not used.
   */
  function NextReviewTime(s: ScheduleService, stage: int, cardType: string, now: int): (t: int)
    ensures stage in s.stageIntervals ==> t - now == s.stageIntervals[stage]
    ensures stage !in s.stageIntervals ==> t - now == DAY
  {
    now + (if stage in s.stageIntervals then s.stageIntervals[stage] else DAY)
  }

  /** When every interval of the table is positive, every stage is scheduled strictly later than now. */
  lemma {:induction false} LaterWhenPositive(s: ScheduleService, stage: int, cardType: string, now: int)
    requires forall k :: k in s.stageIntervals ==> s.stageIntervals[k] > 0
    ensures NextReviewTime(s, stage, cardType, now) > now
  {
  }

  /** The card type never changes the result. */
  lemma {:induction false} CardTypeIrrelevant(s: ScheduleService, stage: int, a: string, b: string, now: int)
    ensures NextReviewTime(s, stage, a, now) == NextReviewTime(s, stage, b, now)
  {
  }

  /** With the default table every stage, mapped or not, is scheduled strictly later than now. */
  lemma {:induction false} DefaultScheduleIsLater(stage: int, cardType: string, now: int)
    ensures NextReviewTime(NewScheduleService(), stage, cardType, now) > now
  {
    LaterWhenPositive(NewScheduleService(), stage, cardType, now);
  }

  /** With the default table, stage 1 is due ten minutes from now and an unmapped stage one day from now. */
  lemma {:induction false} DefaultScheduleValues(stage: int, cardType: string, now: int)
    ensures NextReviewTime(NewScheduleService(), 1, cardType, now) == now + 10 * MINUTE
    ensures NextReviewTime(NewScheduleService(), 4, cardType, now) == now + 30 * DAY
    ensures !(1 <= stage <= 4) ==> NextReviewTime(NewScheduleService(), stage, cardType, now) == now + DAY
  {
  }
}
