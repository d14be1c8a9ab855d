/**
 * Configuration constants of the trainer (backend/config/settings.py).
 * Instants and durations are whole seconds.
 */
module Settings {
  const MINUTE: int := 60
  const HOUR: int := 60 * MINUTE
  const DAY: int := 24 * HOUR

  /** The review interval for each mastery stage. */
  datatype ScheduleConfig = ScheduleConfig(stageIntervals: map<int, int>)

  /** Retry settings; the review service keeps them but never reads them. */
  datatype ReviewConfig = ReviewConfig(retryCountImmediate: int, retryDelaySec: int)

  datatype SystemConfig = SystemConfig(schedule: ScheduleConfig, review: ReviewConfig)

  /** `ScheduleConfig.default()`: 10 minutes, 24 hours, 7 days, 30 days. */
  function DefaultScheduleConfig(): (c: ScheduleConfig)
    ensures c.stageIntervals.Keys == {1, 2, 3, 4}
    ensures forall s :: s in c.stageIntervals ==> c.stageIntervals[s] > 0
  {
    ScheduleConfig(map[1 := 10 * MINUTE, 2 := 24 * HOUR, 3 := 7 * DAY, 4 := 30 * DAY])
  }

  /** The default values of `ReviewConfig`. */
  function DefaultReviewConfig(): (c: ReviewConfig)
    ensures c.retryCountImmediate == 1 && c.retryDelaySec == 30
  {
    ReviewConfig(1, 30)
  }

  /** `SystemConfig.default()`, without the LLM settings. */
  function DefaultSystemConfig(): (c: SystemConfig)
    ensures c.schedule == DefaultScheduleConfig() && c.review == DefaultReviewConfig()
  {
    SystemConfig(DefaultScheduleConfig(), DefaultReviewConfig())
  }

  /** The concrete intervals of the default table. */
  lemma {:induction false} DefaultIntervals()
    ensures DefaultScheduleConfig().stageIntervals[1] == 600
    ensures DefaultScheduleConfig().stageIntervals[2] == 86400
    ensures DefaultScheduleConfig().stageIntervals[3] == 604800
    ensures DefaultScheduleConfig().stageIntervals[4] == 2592000
  {
  }

  /** A higher stage never waits less: the default intervals strictly increase from stage 1 to 4. */
  lemma {:induction false} DefaultIntervalsIncrease(s: int, t: int)
    requires 1 <= s < t <= 4
    ensures DefaultScheduleConfig().stageIntervals[s] < DefaultScheduleConfig().stageIntervals[t]
  {
  }
}
