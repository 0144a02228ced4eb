/**
 What one increase, plain or atomic, leaves behind when it fails and when it
 succeeds, while foreign writes, completions, list refreshes, size queries and
 deletes fall in between.
 */
module IncreaseOutcome {
  import opened Common
  import opened CapacityProtocol
  import opened CapacityRuns
  import opened DeleteSizes

  /** No other increase of the scale set begins. */
  ghost predicate Single<O>(steps: seq<Step<O>>) {
    forall step <- steps :: !step.Begin?
  }

  /** `f` was read during the increase and still shows what the server reported. */
  ghost predicate FreshRead<O>(s0: State<O>, st: State<O>, f: O) {
    && f !in s0.heap && f in st.heap
    && st.heap[f].etag < |st.history| && st.heap[f].capacity == st.history[st.heap[f].etag]
  }

  ghost predicate SamePending<O>(s0: State<O>, st: State<O>) {
    forall i :: 0 <= i < |st.pending| ==> st.pending[i].obj in s0.heap
  }

  /** The increase has just taken the cached object. */
  ghost predicate Started<O>(s0: State<O>) {
    && s0.phase.Ready? && !s0.phase.req.eager
    && s0.phase.req.obj in s0.heap && s0.cached == Some(s0.phase.req.obj)
    && s0.phase.req.seen == s0.heap[s0.phase.req.obj].capacity
    && SamePending(s0, s0)
  }

  /** The cached object is the one taken, or was read since and is untouched. */
  ghost predicate CachedHeld<O>(s0: State<O>, st: State<O>)
    requires Started(s0)
  {
    st.cached.None? || st.cached == Some(s0.phase.req.obj) || FreshRead(s0, st, st.cached.value)
  }

  /** The request is still the one of `s0`, and its object shows the target while the eager
      write stands, else the capacity it had. */
  ghost predicate RequestHeld<O>(s0: State<O>, st: State<O>, req: Request<O>)
    requires Started(s0)
  {
    && req.obj == s0.phase.req.obj && req.target == s0.phase.req.target && req.seen == s0.phase.req.seen
    && (if st.phase.Ready? then req.eager ==> !req.atomic else req.eager <==> !req.atomic)
    && req.obj in st.heap && st.heap[req.obj].capacity == if req.eager then req.target else req.seen
  }

  /** Where one increase, taken by `s0`, stands after any steps but another increase's. */
  ghost predicate Held<O>(s0: State<O>, st: State<O>)
    requires Started(s0)
  {
    var obj, target := s0.phase.req.obj, s0.phase.req.target;
    && obj in st.heap && (forall o <- s0.heap :: o in st.heap)
    && (!st.phase.Published? ==> SamePending(s0, st))
    && (!st.phase.Published? && !st.phase.Carried? ==> CachedHeld(s0, st))
    && match st.phase
       case Idle => false
       case Sized(_, _) => false
       case Ready(req) => RequestHeld(s0, st, req)
       case Conflicted(req) => RequestHeld(s0, st, req)
       case Rejected(req) => RequestHeld(s0, st, req)
       case Refetched(req, f) => RequestHeld(s0, st, req) && FreshRead(s0, st, f)
       case Satisfied(req, f) => FreshRead(s0, st, f) && st.heap[f].capacity >= target
       case InFlight(req, put) => RequestHeld(s0, st, req) && (put.obj == obj || FreshRead(s0, st, put.obj))
       case Carried(req, put) => req.target == target && put.obj in st.heap && st.heap[put.obj].capacity == target
       case Published(_) => true
       case Failed(_) => st.heap[obj].capacity == s0.phase.req.seen
  }

  lemma StoreHolds<O>(s0: State<O>, st: State<O>, f: Fetch<O>)
    requires Started(s0) && Held(s0, st) && CanStore(st, f)
    ensures Held(s0, Store(st, f))
  {
  }

  /** Clocks, the size in memory, deletes, new versions and an emptied cache do not matter. */
  ghost predicate SameHeap<O>(a: State<O>, b: State<O>) {
    && a.history <= b.history && a.heap == b.heap && a.phase == b.phase && a.pending == b.pending
    && (b.cached == a.cached || b.cached.None?)
  }

  lemma SameHolds<O>(s0: State<O>, a: State<O>, b: State<O>)
    requires Started(s0) && Held(s0, a) && SameHeap(a, b)
    ensures Held(s0, b)
  {
  }

  lemma OutsideHolds<O>(cfg: Config, s0: State<O>, st: State<O>, step: Step<O>)
    requires Started(s0) && Held(s0, st) && Enabled(cfg, st, step) && Outside(step)
    ensures Held(s0, Apply(cfg, st, step))
  {
    if step.List? && step.found.Some? {
      StoreHolds(s0, st, step.found.value);
      SameHolds(s0, Store(st, step.found.value), Apply(cfg, st, step));
    } else {
      SameHolds(s0, st, Apply(cfg, st, step));
    }
  }

  lemma StartingHolds<O>(cfg: Config, s0: State<O>, st: State<O>, step: Step<O>)
    requires Started(s0) && Held(s0, st) && Enabled(cfg, st, step) && Starting(step) && !step.Begin?
    ensures Held(s0, Apply(cfg, st, step))
  {
  }

  lemma RequestingHolds<O>(cfg: Config, s0: State<O>, st: State<O>, step: Step<O>)
    requires Started(s0) && Held(s0, st) && Enabled(cfg, st, step) && Requesting(step)
    ensures Held(s0, Apply(cfg, st, step))
  {
  }

  lemma CompleteHolds<O>(cfg: Config, s0: State<O>, st: State<O>, i: nat, poll: Poll)
    requires Started(s0) && Held(s0, st) && Enabled(cfg, st, Complete(i, poll))
    ensures Held(s0, AfterComplete(cfg, st, i, poll))
  {
  }

  lemma SettlingHolds<O>(cfg: Config, s0: State<O>, st: State<O>, step: Step<O>)
    requires Started(s0) && Held(s0, st) && Enabled(cfg, st, step) && Settling(step)
    ensures Held(s0, Apply(cfg, st, step))
  {
    if step.Complete? {
      CompleteHolds(cfg, s0, st, step.i, step.poll);
    }
  }

  lemma StepHolds<O>(cfg: Config, s0: State<O>, st: State<O>, step: Step<O>)
    requires Started(s0) && Held(s0, st) && Enabled(cfg, st, step) && !step.Begin?
    ensures Held(s0, Apply(cfg, st, step))
  {
    if Outside(step) {
      OutsideHolds(cfg, s0, st, step);
    } else if Starting(step) {
      StartingHolds(cfg, s0, st, step);
    } else if Requesting(step) {
      RequestingHolds(cfg, s0, st, step);
    } else {
      SettlingHolds(cfg, s0, st, step);
    }
  }

  lemma {:induction false} RunHolds<O>(cfg: Config, s0: State<O>, st: State<O>, steps: seq<Step<O>>)
    requires Started(s0) && Held(s0, st) && CanRun(cfg, st, steps) && Single(steps)
    ensures Held(s0, Run(cfg, st, steps))
    decreases |steps|
  {
    if steps != [] {
      assert steps[0] in steps;
      StepHolds(cfg, s0, st, steps[0]);
      RunHolds(cfg, s0, Apply(cfg, st, steps[0]), steps[1..]);
    }
  }

  // ---------------------------------------------------------------- failures

  lemma {:induction false} PublishFreeKeepsSize<O>(cfg: Config, st: State<O>, steps: seq<Step<O>>)
    requires CanRun(cfg, st, steps) && PublishFree(cfg, st, steps)
    ensures Run(cfg, st, steps).curSize == st.curSize
    decreases |steps|
  {
    if steps != [] {
      PublishFreeKeepsSize(cfg, Apply(cfg, st, steps[0]), steps[1..]);
    }
  }

  /** A failed increase leaves the object it took at its earlier capacity; the object now
      cached, if any, is that one or one read since, showing a capacity the server reported;
      and the size in memory is as it was unless something else published one. */
  lemma FailureAtomicity<O>(cfg: Config, s0: State<O>, steps: seq<Step<O>>)
    requires Started(s0) && CanRun(cfg, s0, steps) && Single(steps)
    requires Run(cfg, s0, steps).phase.Failed?
    ensures
      var end := Run(cfg, s0, steps);
      var obj := s0.phase.req.obj;
      && obj in end.heap && end.heap[obj].capacity == s0.heap[obj].capacity
      && (end.cached.None? || end.cached == Some(obj) || FreshRead(s0, end, end.cached.value))
      && (PublishFree(cfg, s0, steps) ==> end.curSize == s0.curSize)
  {
    RunHolds(cfg, s0, s0, steps);
    if PublishFree(cfg, s0, steps) {
      PublishFreeKeepsSize(cfg, s0, steps);
    }
  }

  /** A size query reads the target out of the cached object while the eager write stands
      there; it is made only by a scale set that is not Spot and whose size has expired. */
  ghost predicate Leaky<O>(st: State<O>, step: Step<O>) {
    step == Ask(FromCache) && st.cached.Some? && EagerOn(st, st.cached.value)
  }

  ghost predicate Leaks<O>(cfg: Config, st: State<O>, steps: seq<Step<O>>)
    requires CanRun(cfg, st, steps)
    decreases |steps|
  {
    steps != [] && (Leaky(st, steps[0]) || Leaks(cfg, Apply(cfg, st, steps[0]), steps[1..]))
  }

  /** No other increase begins, and nothing but such a query publishes a size. */
  ghost predicate OnlyLeaks<O>(cfg: Config, st: State<O>, steps: seq<Step<O>>)
    requires CanRun(cfg, st, steps)
    decreases |steps|
  {
    steps == [] ||
    (&& !steps[0].Begin? && (Publishes(cfg, st, steps[0]) ==> Leaky(st, steps[0]))
     && OnlyLeaks(cfg, Apply(cfg, st, steps[0]), steps[1..]))
  }

  lemma {:induction false} SizeAfterLeaks<O>(cfg: Config, s0: State<O>, st: State<O>, steps: seq<Step<O>>)
    requires Started(s0) && Held(s0, st) && CanRun(cfg, st, steps) && OnlyLeaks(cfg, st, steps)
    ensures Run(cfg, st, steps).curSize == if Leaks(cfg, st, steps) then s0.phase.req.target else st.curSize
    decreases |steps|
  {
    if steps != [] {
      StepHolds(cfg, s0, st, steps[0]);
      SizeAfterLeaks(cfg, s0, Apply(cfg, st, steps[0]), steps[1..]);
    }
  }

  /** After whatever happened `before`, and with no other publication `after`: an increase
      that fails ends with the size in memory it had in between if and only if no query read
      the taken object, still cached, while the eager write stood; otherwise it ends with the
      rejected target. */
  lemma RejectedTargetLeaksIff<O>(cfg: Config, s0: State<O>, before: seq<Step<O>>, after: seq<Step<O>>)
    requires Started(s0) && CanRun(cfg, s0, before) && Single(before)
    requires CanRun(cfg, Run(cfg, s0, before), after) && OnlyLeaks(cfg, Run(cfg, s0, before), after)
    requires Run(cfg, Run(cfg, s0, before), after).phase.Failed?
    requires Run(cfg, s0, before).curSize != s0.phase.req.target
    ensures
      var mid := Run(cfg, s0, before);
      var end := Run(cfg, mid, after);
      && (end.curSize == mid.curSize <==> !Leaks(cfg, mid, after))
      && (Leaks(cfg, mid, after) ==> end.curSize == s0.phase.req.target)
  {
    RunHolds(cfg, s0, s0, before);
    SizeAfterLeaks(cfg, s0, Run(cfg, s0, before), after);
  }

  // ------------------------------------------------------------- publication

  /** The step neither begins another increase nor replaces the cached object, and is no
      delete after the publication. */
  ghost predicate Undisturbing<O>(cfg: Config, st: State<O>, step: Step<O>) {
    && !step.Begin? && !step.List? && !(step.Ask? && step.query.FromGet?)
    && (st.phase.Published? && step.DeleteAccepted? ==> !Publishes(cfg, st, step))
  }

  ghost predicate Undisturbed<O>(cfg: Config, st: State<O>, steps: seq<Step<O>>)
    requires CanRun(cfg, st, steps)
    decreases |steps|
  {
    steps == [] || (Undisturbing(cfg, st, steps[0]) && Undisturbed(cfg, Apply(cfg, st, steps[0]), steps[1..]))
  }

  /** The cached object is the one the increase works on. */
  ghost predicate Tracked<O>(s0: State<O>, st: State<O>)
    requires Started(s0)
  {
    match st.phase
    case Ready(req) => st.cached == Some(req.obj)
    case Conflicted(req) => st.cached == Some(req.obj)
    case Refetched(_, f) => st.cached == Some(f)
    case Satisfied(_, f) => st.cached == Some(f)
    case InFlight(_, put) => st.cached == Some(put.obj)
    case Carried(_, put) => st.cached == Some(put.obj)
    case Published(_) =>
      && st.cached.Some? && st.cached.value in st.heap
      && st.curSize == st.heap[st.cached.value].capacity >= s0.phase.req.target
    case _ => true
  }

  lemma StepTracks<O>(cfg: Config, s0: State<O>, st: State<O>, step: Step<O>)
    requires Started(s0) && Held(s0, st) && Tracked(s0, st) && Enabled(cfg, st, step) && Undisturbing(cfg, st, step)
    ensures Tracked(s0, Apply(cfg, st, step))
  {
    if Settling(step) {
      SettlingTracks(cfg, s0, st, step);
    }
  }

  lemma SettlingTracks<O>(cfg: Config, s0: State<O>, st: State<O>, step: Step<O>)
    requires Started(s0) && Held(s0, st) && Tracked(s0, st) && Enabled(cfg, st, step) && Settling(step)
    ensures Tracked(s0, Apply(cfg, st, step))
  {
  }

  lemma {:induction false} RunTracks<O>(cfg: Config, s0: State<O>, st: State<O>, steps: seq<Step<O>>)
    requires Started(s0) && Held(s0, st) && Tracked(s0, st) && CanRun(cfg, st, steps) && Undisturbed(cfg, st, steps)
    ensures Tracked(s0, Run(cfg, st, steps))
    decreases |steps|
  {
    if steps != [] {
      StepHolds(cfg, s0, st, steps[0]);
      StepTracks(cfg, s0, st, steps[0]);
      RunTracks(cfg, s0, Apply(cfg, st, steps[0]), steps[1..]);
    }
  }

  /** A successful increase publishes the capacity of the object now in the cache, which is
      at least the requested size, whatever was written, completed, queried or deleted
      meanwhile, as long as no list or GET replaced the cached object. */
  lemma Publication<O>(cfg: Config, s0: State<O>, steps: seq<Step<O>>)
    requires Started(s0) && CanRun(cfg, s0, steps) && Undisturbed(cfg, s0, steps)
    requires Run(cfg, s0, steps).phase.Published?
    ensures
      var end := Run(cfg, s0, steps);
      && end.cached.Some? && end.cached.value in end.heap
      && end.curSize == end.heap[end.cached.value].capacity >= s0.phase.req.target
  {
    RunTracks(cfg, s0, s0, steps);
  }

  // -------------------------------------------------- what failures invalidate

  /** The time at which all three caches were invalidated, if they were at one time. */
  ghost function InvalidatedAt<O>(cfg: Config, st: State<O>): int {
    st.timers.size + cfg.sizePeriod
  }

  ghost predicate Invalidated<O>(cfg: Config, since: int, st: State<O>) {
    var t := InvalidatedAt(cfg, st);
    && since <= t <= st.now
    && st.timers.instances == t - cfg.instancesPeriod && st.timers.manager == t - cfg.cachePeriod
  }

  /** The increase's own steps, and steps that touch no timer. */
  ghost predicate Alone<O>(step: Step<O>) {
    || step.Take? || step.GiveUp? || step.EagerWrite? || Requesting(step)
    || step.Carry? || step.Publish? || step.PollAtomic? || step.RollBack?
    || step.Tick? || step.Foreign? || (step.Ask? && (step.query.InMemory? || step.query.QueryFailed?))
  }

  /** The first PUT was accepted, or met a failed precondition with ETags on. */
  ghost predicate PastFirstPut<O>(cfg: Config, step: Step<O>) {
    step.SendFirst? && (step.reply.Accepted? || (step.reply.PreconditionFailed? && cfg.etags))
  }

  /** The timers of an increase that began at `s0`; `past` is whether it got past its first PUT. */
  ghost predicate Timed<O>(cfg: Config, s0: State<O>, st: State<O>, past: bool) {
    && st.now >= s0.now
    && match st.phase
       case Idle => !past && st.timers == s0.timers
       case Sized(_, _) => !past && st.timers == s0.timers
       case Ready(_) => !past && st.timers == s0.timers
       case Rejected(_) => if past then Invalidated(cfg, s0.now, st) else st.timers == s0.timers
       case Failed(_) => if past then Invalidated(cfg, s0.now, st) else st.timers == s0.timers
       case Published(_) => true
       case _ => past
  }

  lemma StepTimes<O>(cfg: Config, s0: State<O>, st: State<O>, step: Step<O>, past: bool)
    requires Timed(cfg, s0, st, past) && Enabled(cfg, st, step) && Alone(step)
    ensures Timed(cfg, s0, Apply(cfg, st, step), past || PastFirstPut(cfg, step))
  {
  }

  lemma {:induction false} RunTimes<O>(cfg: Config, s0: State<O>, st: State<O>, steps: seq<Step<O>>, past: bool)
    requires Timed(cfg, s0, st, past) && CanRun(cfg, st, steps) && (forall step <- steps :: Alone(step))
    ensures Timed(cfg, s0, Run(cfg, st, steps), past || exists step <- steps :: PastFirstPut(cfg, step))
    decreases |steps|
  {
    if steps != [] {
      StepTimes(cfg, s0, st, steps[0], past);
      var now := past || PastFirstPut(cfg, steps[0]);
      RunTimes(cfg, s0, Apply(cfg, st, steps[0]), steps[1..], now);
      assert steps == [steps[0]] + steps[1..];
    }
  }

  /** An increase past canIncreaseSize that fails, whether for want of the VMSS, at its first
      PUT or later, invalidates all three caches if and only if its first PUT was accepted or
      met a failed precondition with ETags on; otherwise no timer changes.  What is invalidated
      is not served, but for the size of a Spot scale set whose own period is longer. */
  lemma FailureInvalidation<O>(cfg: Config, st: State<O>, steps: seq<Step<O>>)
    requires st.phase.Sized? || st.phase.Ready?
    requires CanRun(cfg, st, steps) && (forall step <- steps :: Alone(step))
    requires Run(cfg, st, steps).phase.Failed? || Run(cfg, st, steps).phase.Idle?
    ensures
      var end := Run(cfg, st, steps);
      if exists step <- steps :: PastFirstPut(cfg, step) then
        && Invalidated(cfg, st.now, end) && !InstancesFresh(cfg, end) && !ManagerFresh(cfg, end)
        && (SizeFresh(cfg, end) ==> cfg.spot && cfg.spotPeriod > cfg.sizePeriod)
        && (cfg.spot && cfg.spotPeriod > cfg.sizePeriod && end.now == InvalidatedAt(cfg, end) ==> SizeFresh(cfg, end))
      else end.timers == st.timers
  {
    RunTimes(cfg, st, st, steps, false);
  }

  /** An increase that canIncreaseSize turns down invalidates nothing either, except that a
      query which finds another size makes the instance cache refresh. */
  lemma QueryInvalidation<O>(cfg: Config, st: State<O>, q: Query<O>)
    requires CanAsk(cfg, st, q)
    ensures
      var end := AfterQuery(cfg, st, q);
      && end.timers.manager == st.timers.manager
      && (end.timers.size == st.timers.size || (SizeFresh(cfg, end) <==> EffectivePeriod(cfg) > 0))
      && end.timers.instances == if end.curSize == st.curSize then st.timers.instances else st.now - cfg.instancesPeriod
  {
  }

  // ------------------------------------------- conditions on the steps alone

  /** Not another increase; with `calm`, nothing that can publish a size beside the increase;
      with `steady`, nothing that replaces the cached object but the increase's own GET. */
  ghost predicate Allowed<O>(step: Step<O>, calm: bool, steady: bool) {
    && !step.Begin?
    && (calm ==> !step.Ask? && !step.DeleteAccepted?)
    && (steady ==> !step.List? && !(step.Ask? && step.query.FromGet?))
  }

  ghost predicate AllAllowed<O>(steps: seq<Step<O>>, calm: bool, steady: bool) {
    forall step <- steps :: Allowed(step, calm, steady)
  }

  lemma ExtendAllowed<O>(cfg: Config, st: State<O>, steps: seq<Step<O>>, step: Step<O>, calm: bool, steady: bool)
    requires CanRun(cfg, st, steps) && AllAllowed(steps, calm, steady)
    requires Enabled(cfg, Run(cfg, st, steps), step) && Allowed(step, calm, steady)
    ensures CanRun(cfg, st, steps + [step]) && AllAllowed(steps + [step], calm, steady)
    ensures Run(cfg, st, steps + [step]) == Apply(cfg, Run(cfg, st, steps), step)
  {
    Extend(cfg, st, steps, step);
  }

  /** The first PUT as one more step of a run. */
  lemma ExtendByFirst<O>(cfg: Config, s0: State<O>, steps: seq<Step<O>>, st: State<O>, reply: Reply, calm: bool, steady: bool)
    requires CanRun(cfg, s0, steps) && st == Run(cfg, s0, steps) && AllAllowed(steps, calm, steady)
    requires st.phase.Ready? && Enabled(cfg, st, SendFirst(reply))
    ensures CanRun(cfg, s0, steps + [SendFirst(reply)]) && AllAllowed(steps + [SendFirst(reply)], calm, steady)
    ensures
      var next := Run(cfg, s0, steps + [SendFirst(reply)]);
      var req := st.phase.req;
      && next == AfterFirst(cfg, st, reply)
      && next.heap == st.heap && next.history == (if reply.Accepted? then st.history + [req.target] else st.history)
      && next == st.(history := next.history, known := next.known, puts := next.puts, phase := next.phase)
      && next.phase ==
           if reply.Accepted? then InFlight(req, Put(req.obj, |st.history|))
           else if reply.PreconditionFailed? && cfg.etags then Conflicted(req) else Rejected(req)
  {
    ExtendAllowed(cfg, s0, steps, SendFirst(reply), calm, steady);
  }

  lemma {:induction false} PublishedStays<O>(cfg: Config, st: State<O>, steps: seq<Step<O>>)
    requires CanRun(cfg, st, steps) && Single(steps) && st.phase.Published?
    ensures Run(cfg, st, steps).phase.Published?
    decreases |steps|
  {
    if steps != [] {
      assert steps[0] in steps;
      PublishedStays(cfg, Apply(cfg, st, steps[0]), steps[1..]);
    }
  }

  lemma {:induction false} UnpublishedIsFree<O>(cfg: Config, st: State<O>, steps: seq<Step<O>>)
    requires CanRun(cfg, st, steps) && AllAllowed(steps, true, false) && !Run(cfg, st, steps).phase.Published?
    ensures PublishFree(cfg, st, steps)
    decreases |steps|
  {
    if steps != [] {
      assert Allowed(steps[0], true, false);
      if Publishes(cfg, st, steps[0]) {
        assert forall step <- steps[1..] :: Allowed(step, true, false);
        PublishedStays(cfg, Apply(cfg, st, steps[0]), steps[1..]);
      }
      UnpublishedIsFree(cfg, Apply(cfg, st, steps[0]), steps[1..]);
    }
  }

  lemma CalmKeepsSize<O>(cfg: Config, st: State<O>, steps: seq<Step<O>>)
    requires CanRun(cfg, st, steps) && AllAllowed(steps, true, false) && !Run(cfg, st, steps).phase.Published?
    ensures Run(cfg, st, steps).curSize == st.curSize
  {
    UnpublishedIsFree(cfg, st, steps);
    PublishFreeKeepsSize(cfg, st, steps);
  }

  lemma {:induction false} UnpublishedIsUndisturbed<O>(cfg: Config, st: State<O>, steps: seq<Step<O>>)
    requires CanRun(cfg, st, steps) && AllAllowed(steps, false, true) && !Run(cfg, st, steps).phase.Published?
    ensures Undisturbed(cfg, st, steps)
    decreases |steps|
  {
    if steps != [] {
      assert Allowed(steps[0], false, true);
      if st.phase.Published? {
        assert forall step <- steps :: Allowed(step, false, true);
        PublishedStays(cfg, st, steps);
      }
      UnpublishedIsUndisturbed(cfg, Apply(cfg, st, steps[0]), steps[1..]);
    }
  }

  /** Publication when the run ends with the publishing step. */
  lemma PublicationByLast<O>(cfg: Config, s0: State<O>, before: seq<Step<O>>, last: Step<O>)
    requires Started(s0) && CanRun(cfg, s0, before) && AllAllowed(before, false, true) && !Run(cfg, s0, before).phase.Published?
    requires Enabled(cfg, Run(cfg, s0, before), last) && (last.Publish? || last.PollAtomic?)
    requires Apply(cfg, Run(cfg, s0, before), last).phase.Published?
    ensures
      var end := Apply(cfg, Run(cfg, s0, before), last);
      && end.cached.Some? && end.cached.value in end.heap
      && end.curSize == end.heap[end.cached.value].capacity >= s0.phase.req.target
  {
    UnpublishedIsUndisturbed(cfg, s0, before);
    RunTracks(cfg, s0, s0, before);
    RunHolds(cfg, s0, s0, before);
    StepTracks(cfg, s0, Run(cfg, s0, before), last);
  }
}
