/**
 The scheduling decisions of src/scheduler_strategies.hpp: what a node's input ports
 must look like for an execution to be scheduled.
 */
module Scheduler {

  /** The part of the scheduling context that the decisions read. */
  datatype Context = Context(isSource: bool, expected: nat, ready: nat) {
    predicate AllInputsReady() {
      ready >= expected
    }

    predicate HasInitialInput() {
      ready > 0
    }
  }

  /** BatchSchedulerStrategy::shouldSchedule answers ScheduleNow. */
  predicate BatchSchedules(ctx: Context) {
    if ctx.isSource && ctx.HasInitialInput() then true
    else if ctx.isSource && ctx.expected == 0 then true
    else ctx.AllInputsReady()
  }

  /**
   StreamSchedulerStrategy::shouldSchedule answers ScheduleNow, when partial inputs are
   not allowed.  Rate limiting can only turn this answer into a deferral.
   */
  predicate StreamSchedules(ctx: Context) {
    if ctx.isSource && ctx.HasInitialInput() then true
    else ctx.AllInputsReady()
  }
}
