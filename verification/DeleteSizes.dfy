/**
 The size in memory around deletes: the proactive decrement of an accepted delete,
 and what is left of it when the delete fails.
 */
module DeleteSizes {
  import opened Common
  import opened CapacityProtocol

  /** The clock is past the zero time by more than any period (periods are time.Durations). */
  ghost predicate ClockOk<O>(cfg: Config, st: State<O>) {
    && st.now > MAX_DURATION
    && cfg.sizePeriod <= MAX_DURATION && cfg.spotPeriod <= MAX_DURATION
  }

  ghost predicate PublishFree<O>(cfg: Config, st: State<O>, steps: seq<Step<O>>)
    requires CanRun(cfg, st, steps)
    decreases |steps|
  {
    steps == [] || (!Publishes(cfg, st, steps[0]) && PublishFree(cfg, Apply(cfg, st, steps[0]), steps[1..]))
  }

  lemma {:induction false} StaleStays<O>(cfg: Config, st: State<O>, steps: seq<Step<O>>)
    requires ClockOk(cfg, st) && CanRun(cfg, st, steps) && PublishFree(cfg, st, steps)
    requires st.timers.size + cfg.sizePeriod <= st.now
    ensures
      var end := Run(cfg, st, steps);
      end.timers.size + cfg.sizePeriod <= end.now && end.curSize == st.curSize
    decreases |steps|
  {
    if steps != [] {
      StaleStep(cfg, st, steps[0]);
      StaleStays(cfg, Apply(cfg, st, steps[0]), steps[1..]);
    }
  }

  lemma StaleStep<O>(cfg: Config, st: State<O>, step: Step<O>)
    requires ClockOk(cfg, st) && Enabled(cfg, st, step) && !Publishes(cfg, st, step)
    requires st.timers.size + cfg.sizePeriod <= st.now
    ensures
      var next := Apply(cfg, st, step);
      next.timers.size + cfg.sizePeriod <= next.now && next.curSize == st.curSize && ClockOk(cfg, next)
  {
  }

  // -------------------------------------------------------- accepted deletes

  /** The delete is one whose ids are to be taken off the size. */
  ghost predicate Counted<O>(cfg: Config, step: Step<O>) {
    step.DeleteAccepted? && !cfg.strict && !step.unregistered
  }

  /** The size in memory cannot represent the delete. */
  ghost predicate Overdraws<O>(cfg: Config, st: State<O>, step: Step<O>) {
    Counted(cfg, step) && st.curSize < step.count
  }

  /** Nothing but deletes publishes a size. */
  ghost predicate OnlyDeletes<O>(cfg: Config, st: State<O>, steps: seq<Step<O>>)
    requires CanRun(cfg, st, steps)
    decreases |steps|
  {
    steps == [] ||
    (&& (Publishes(cfg, st, steps[0]) ==> steps[0].DeleteAccepted?)
     && OnlyDeletes(cfg, Apply(cfg, st, steps[0]), steps[1..]))
  }

  /** The ids sent by deletes that are to be taken off the size. */
  ghost function Sent<O>(cfg: Config, steps: seq<Step<O>>): nat
    decreases |steps|
  {
    if steps == [] then 0 else (if Counted(cfg, steps[0]) then steps[0].count else 0) + Sent(cfg, steps[1..])
  }

  /** The ids of the deletes that overdraw the size when they are accepted. */
  ghost function Overdrawn<O>(cfg: Config, st: State<O>, steps: seq<Step<O>>): nat
    requires CanRun(cfg, st, steps)
    decreases |steps|
  {
    if steps == [] then 0
    else (if Overdraws(cfg, st, steps[0]) then steps[0].count else 0) + Overdrawn(cfg, Apply(cfg, st, steps[0]), steps[1..])
  }

  /** A delete overdraws the size and none after it can be represented. */
  ghost predicate EndsOverdrawn<O>(cfg: Config, st: State<O>, steps: seq<Step<O>>)
    requires CanRun(cfg, st, steps)
    decreases |steps|
  {
    steps != [] &&
    (|| EndsOverdrawn(cfg, Apply(cfg, st, steps[0]), steps[1..])
     || (Overdraws(cfg, st, steps[0]) && PublishFree(cfg, Apply(cfg, st, steps[0]), steps[1..])))
  }

  lemma DeleteStep<O>(cfg: Config, st: State<O>, step: Step<O>)
    requires ClockOk(cfg, st) && Enabled(cfg, st, step) && (Publishes(cfg, st, step) ==> step.DeleteAccepted?)
    ensures
      var next := Apply(cfg, st, step);
      && ClockOk(cfg, next)
      && next.curSize == st.curSize - (if Counted(cfg, step) && !Overdraws(cfg, st, step) then step.count else 0)
      && (Overdraws(cfg, st, step) ==> next.timers.size + cfg.sizePeriod <= next.now)
  {
  }

  lemma {:induction false} DeletesAccount<O>(cfg: Config, st: State<O>, steps: seq<Step<O>>)
    requires ClockOk(cfg, st) && CanRun(cfg, st, steps) && OnlyDeletes(cfg, st, steps)
    ensures
      var end := Run(cfg, st, steps);
      && end.curSize == st.curSize - Sent(cfg, steps) + Overdrawn(cfg, st, steps)
      && (EndsOverdrawn(cfg, st, steps) ==> end.timers.size + cfg.sizePeriod <= end.now)
    decreases |steps|
  {
    if steps != [] {
      var next := Apply(cfg, st, steps[0]);
      DeleteStep(cfg, st, steps[0]);
      DeletesAccount(cfg, next, steps[1..]);
      if Overdraws(cfg, st, steps[0]) && PublishFree(cfg, next, steps[1..]) {
        StaleStays(cfg, next, steps[1..]);
      }
    }
  }

  /** Over any run in which only deletes publish a size: the size in memory is the one before
      minus all the ids sent for registered nodes if and only if no delete overdrew it; and if
      the last delete to count overdrew it, the next query does not serve it but takes the
      capacity of a VMSS object. */
  lemma AcceptedDeletes<O>(cfg: Config, st: State<O>, steps: seq<Step<O>>, q: Query<O>)
    requires ClockOk(cfg, st) && CanRun(cfg, st, steps) && OnlyDeletes(cfg, st, steps)
    requires !cfg.spot || cfg.spotPeriod <= cfg.sizePeriod
    requires CanAsk(cfg, Run(cfg, st, steps), q) && !q.QueryFailed?
    ensures
      var end := Run(cfg, st, steps);
      var after := AfterQuery(cfg, end, q);
      && (end.curSize == st.curSize - Sent(cfg, steps) <==> Overdrawn(cfg, st, steps) == 0)
      && end.curSize == st.curSize - Sent(cfg, steps) + Overdrawn(cfg, st, steps)
      && (EndsOverdrawn(cfg, st, steps) ==>
            && !q.InMemory? && after.cached.Some? && after.cached.value in after.heap
            && after.curSize == after.heap[after.cached.value].capacity)
  {
    DeletesAccount(cfg, st, steps);
  }

  // ----------------------------------------------------------- failed deletes

  /** After a delete has failed, whether or not the forced refresh worked and whatever
      else happens short of another publication, the next size query does not serve the
      size in memory: it takes the capacity of a VMSS object. */
  lemma FailedDeleteForgetsDecrement<O>(cfg: Config, st: State<O>, refreshed: bool, steps: seq<Step<O>>, q: Query<O>)
    requires ClockOk(cfg, st) && st.deletes > 0
    requires !cfg.spot || cfg.spotPeriod <= cfg.sizePeriod
    requires CanRun(cfg, Apply(cfg, st, DeleteFinished(DeleteFailed, refreshed)), steps)
    requires PublishFree(cfg, Apply(cfg, st, DeleteFinished(DeleteFailed, refreshed)), steps)
    requires
      var end := Run(cfg, Apply(cfg, st, DeleteFinished(DeleteFailed, refreshed)), steps);
      CanAsk(cfg, end, q) && !q.QueryFailed?
    ensures
      var end := Run(cfg, Apply(cfg, st, DeleteFinished(DeleteFailed, refreshed)), steps);
      var after := AfterQuery(cfg, end, q);
      && !q.InMemory? && after.cached.Some? && after.cached.value in after.heap
      && after.curSize == after.heap[after.cached.value].capacity
  {
    StaleStays(cfg, Apply(cfg, st, DeleteFinished(DeleteFailed, refreshed)), steps);
  }

  /** The decremented size is still served right after the failure exactly for a Spot
      scale set whose own refresh period is longer than sizeRefreshPeriod. */
  lemma FailedDeleteServesDecrementIff<O>(cfg: Config, st: State<O>, refreshed: bool)
    requires st.deletes > 0 && st.cached.Some?
    ensures
      CanAsk(cfg, Apply(cfg, st, DeleteFinished(DeleteFailed, refreshed)), InMemory)
      <==> cfg.spot && cfg.spotPeriod > cfg.sizePeriod
  {
  }
}
