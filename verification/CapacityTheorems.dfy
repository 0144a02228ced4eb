/**
 The theorems about whole runs of the capacity protocol, for any interleaving of
 increases, completions, refreshes, size queries, deletes and foreign writes.
 */
module CapacityTheorems {
  import opened Common
  import opened CapacityProtocol
  import opened CapacityRuns

  lemma {:induction false} RunKeepsInv<O>(cfg: Config, st: State<O>, steps: seq<Step<O>>)
    requires cfg.etags && Inv(cfg, st) && CanRun(cfg, st, steps)
    ensures Inv(cfg, Run(cfg, st, steps))
    decreases |steps|
  {
    if steps != [] {
      StepKeepsInv(cfg, st, steps[0]);
      RunKeepsInv(cfg, Apply(cfg, st, steps[0]), steps[1..]);
    }
  }

  lemma ReachableInv<O>(cfg: Config, st: State<O>, steps: seq<Step<O>>)
    requires cfg.etags && Init(st) && CanRun(cfg, st, steps)
    ensures Inv(cfg, Run(cfg, st, steps))
  {
    InitKeepsInv(cfg, st);
    RunKeepsInv(cfg, st, steps);
  }

  // -------------------------------------------------------------- coherence

  /** Unless an increase is writing to it, a cached object carrying the current ETag
      shows the server's capacity; and its capacity is always one the autoscaler read
      from the server or wrote to it, never a rejected target. */
  lemma Coherence<O>(cfg: Config, st: State<O>, steps: seq<Step<O>>)
    requires cfg.etags && Init(st) && CanRun(cfg, st, steps)
    ensures
      var end := Run(cfg, st, steps);
      end.cached.Some? && !EagerOn(end, end.cached.value) ==>
        end.cached.value in end.heap &&
        var vmss := end.heap[end.cached.value];
        && (vmss.etag == Current(end) ==> vmss.capacity == end.history[Current(end)])
        && Reported(end.history, end.known, vmss.capacity)
  {
    ReachableInv(cfg, st, steps);
    var end := Run(cfg, st, steps);
    if end.cached.Some? {
      assert Agrees(end, end.cached.value);
    }
  }

  // -------------------------------------------------------- no lost update

  /** The accepted PUTs whose completion is still to come. */
  ghost function Uncompleted<O>(st: State<O>): seq<Put<O>> {
    st.pending + (if st.phase.InFlight? || st.phase.Carried? then [st.phase.put] else [])
  }

  /** An accepted PUT replaced a version the autoscaler had read or written, made
      exactly the capacity it asked for, and no object has two PUTs under way. */
  lemma NoLostUpdate<O>(cfg: Config, st: State<O>, steps: seq<Step<O>>)
    requires cfg.etags && Init(st) && CanRun(cfg, st, steps)
    ensures
      var end := Run(cfg, st, steps);
      && (forall r <- end.puts :: r.version.Some? ==>
            && r.informed && 0 < r.version.value < |end.history|
            && end.history[r.version.value] == r.target)
      && (forall i, j :: 0 <= i < j < |Uncompleted(end)| ==> Uncompleted(end)[i].obj != Uncompleted(end)[j].obj)
  {
    ReachableInv(cfg, st, steps);
    var end := Run(cfg, st, steps);
    forall r | r in end.puts && r.version.Some?
      ensures r.informed && 0 < r.version.value < |end.history| && end.history[r.version.value] == r.target
    {
      assert RecordOk(cfg, end.history, r);
    }
  }

  /** An accepted retried PUT strictly raises the server's capacity.  An accepted first
      PUT replaces a version whose capacity is the one seen in the cached object before
      the increase, so it shrinks the scale set exactly when that was above the target. */
  lemma PutsAndServerCapacity<O>(cfg: Config, st: State<O>, steps: seq<Step<O>>, r: PutRecord)
    requires cfg.etags && Init(st) && CanRun(cfg, st, steps)
    requires r in Run(cfg, st, steps).puts && r.version.Some?
    ensures
      var end := Run(cfg, st, steps);
      && 0 < r.version.value < |end.history|
      && (r.retried ==> end.history[r.version.value - 1] < end.history[r.version.value])
      && (!r.retried ==> (end.history[r.version.value] < end.history[r.version.value - 1] <==> r.target < r.seen))
  {
    ReachableInv(cfg, st, steps);
    assert RecordOk(cfg, Run(cfg, st, steps).history, r);
  }

  /** While an object's PUT is uncompleted the server accepts no first PUT from it; its
      completion lets one through exactly when the response carried the ETag and nobody
      has written since.  A completion without the ETag makes all three caches refresh. */
  lemma CompletionUnblocks<O>(cfg: Config, st: State<O>, steps: seq<Step<O>>, i: nat, poll: Poll)
    requires cfg.etags && Init(st) && CanRun(cfg, st, steps)
    requires
      var end := Run(cfg, st, steps);
      && end.phase.Ready? && (end.phase.req.atomic || end.phase.req.eager)
      && i < |end.pending| && end.pending[i].obj == end.phase.req.obj
    ensures
      var end := Run(cfg, st, steps);
      && !Enabled(cfg, end, SendFirst(Accepted)) && Enabled(cfg, end, Complete(i, poll))
      && (Enabled(cfg, Apply(cfg, end, Complete(i, poll)), SendFirst(Accepted)) <==>
            poll == Done(true) && end.pending[i].version == Current(end))
      && (poll != Done(true) ==>
            var after := Apply(cfg, end, Complete(i, poll));
            after.timers.size + cfg.sizePeriod <= after.now && !InstancesFresh(cfg, after) && !ManagerFresh(cfg, after))
  {
    ReachableInv(cfg, st, steps);
    assert Outstanding(Run(cfg, st, steps), Run(cfg, st, steps).pending[i]);
  }

  // ------------------------------------------------- what background steps touch

  /** For any configuration: a completion makes the instance cache stale; it makes the size and
      the manager's cache stale if and only if the poll failed, or ETags are on and the
      response carried none; it gives its object the version's ETag if and only if ETags are
      on and the response carried it; and it touches nothing else. */
  lemma CompletionTouches<O>(cfg: Config, st: State<O>, i: nat, poll: Poll)
    requires Enabled(cfg, st, Complete(i, poll))
    ensures
      var after := Apply(cfg, st, Complete(i, poll));
      var (obj, version) := (st.pending[i].obj, st.pending[i].version);
      var stale := poll == Broken || (cfg.etags && poll == Done(false));
      && after.timers.instances == st.now - cfg.instancesPeriod
      && after.timers.size == (if stale then st.now - cfg.sizePeriod else st.timers.size)
      && after.timers.manager == (if stale then st.now - cfg.cachePeriod else st.timers.manager)
      && after.heap.Keys == st.heap.Keys && (forall o <- st.heap :: o != obj ==> after.heap[o] == st.heap[o])
      && after.heap[obj] == Vmss(if cfg.etags && poll == Done(true) then version else st.heap[obj].etag, st.heap[obj].capacity)
      && after.pending == st.pending[..i] + st.pending[i+1..]
      && after == st.(timers := after.timers, heap := after.heap, pending := after.pending)
  {
  }

  /** The end of a delete: a success touches nothing, but in strict mode makes the instance
      cache stale, and the manager's if the forced refresh failed; a success on the retry
      makes the instance cache stale; a failure that and the size, and the manager's cache if
      the forced refresh failed. */
  lemma DeleteEndTouches<O>(cfg: Config, st: State<O>, outcome: DeleteOutcome, refreshed: bool)
    requires st.deletes > 0
    ensures
      var after := Apply(cfg, st, DeleteFinished(outcome, refreshed));
      && (after.timers.instances == if outcome == Deleted && !cfg.strict then st.timers.instances else st.now - cfg.instancesPeriod)
      && (after.timers.size == if outcome == DeleteFailed then st.now - cfg.sizePeriod else st.timers.size)
      && (after.timers.manager ==
            if !refreshed && (outcome == DeleteFailed || (outcome == Deleted && cfg.strict)) then st.now - cfg.cachePeriod
            else st.timers.manager)
      && after == st.(timers := after.timers, deletes := st.deletes - 1)
  {
  }
}
