/** The tool scheduler as an object. */
module Scheduler {
  // Every method is proved to take the step of the same name in SchedulerModel, so the theorems
  // about runs of that model hold for the object.

  import opened Wrappers
  import M = SchedulerModel

  datatype SchedulerError = Failed(cause: M.Thrown) | NotRegistered(order: nat) | HasOutcomeAlready(order: nat)

  class OrderedToolScheduler<T> {
    const maxSafeConcurrency: nat
    var entries: seq<M.Entry<T>>
    var runningSafe: int
    var exclusiveRunning: bool
    var nextCommit: nat
    var committing: bool
    var failed: M.Thrown
    ghost var trace: seq<M.Event<T>>

    ghost function State(): M.State<T>
      reads this
    {
      M.State(maxSafeConcurrency, entries, runningSafe, exclusiveRunning, nextCommit, committing, failed, trace)
    }

    constructor (maxSafe: real)
      ensures State() == M.Init<T>(if maxSafe.Floor < 1 then 1 else maxSafe.Floor)
    {
      maxSafeConcurrency := if maxSafe.Floor < 1 then 1 else maxSafe.Floor;
      entries, runningSafe, exclusiveRunning, nextCommit := [], 0, false, 0;
      committing, failed, trace := false, M.Undefined, [];
    }

    method Register(concurrency: M.Concurrency) returns (r: Result<nat, SchedulerError>)
      modifies this
      ensures State() == M.Register(old(State()), concurrency)
      ensures r == if old(failed) != M.Undefined then Err(Failed(old(failed))) else Ok(old(|entries|))
    {
      if failed != M.Undefined { return Err(Failed(failed)); }
      entries := entries + [M.NewEntry(concurrency)];
      return Ok(|entries| - 1);
    }

    /** `execute`: the callbacks themselves are left to the environment's continuations. */
    method Execute(order: nat) returns (r: Result<(), SchedulerError>)
      modifies this
      ensures State() == M.Execute(old(State()), order)
      ensures r.Ok? <==> M.Accepts(old(State()), order)
    {
      if order >= |entries| { return Err(NotRegistered(order)); }
      var entry := entries[order];
      if entry.hasRun || entry.ready { return Err(HasOutcomeAlready(order)); }
      entries := entries[order := entry.(hasRun := true, hasCommit := true)];
      Pump();
      return Ok(());
    }

    method Complete(order: nat, value: T) returns (r: Result<(), SchedulerError>)
      modifies this
      ensures State() == M.Complete(old(State()), order, value)
      ensures r.Ok? <==> M.Accepts(old(State()), order)
    {
      if order >= |entries| { return Err(NotRegistered(order)); }
      var entry := entries[order];
      if entry.hasRun || entry.ready { return Err(HasOutcomeAlready(order)); }
      entries := entries[order := entry.(value := Some(value), ready := true, hasCommit := true)];
      CommitReady();
      Pump();
      return Ok(());
    }

    method Pump()
      modifies this
      ensures State() == M.Pump(old(State()))
    {
      if failed != M.Undefined || exclusiveRunning { return; }
      ghost var start := State();
      var pending := 0;
      while pending < |entries| && !M.IsPending(entries[pending])
        invariant pending <= |entries|
        invariant M.FirstPending(entries, 0) == M.FirstPending(entries, pending)
      {
        pending := pending + 1;
      }
      if pending == |entries| { return; }
      var first := entries[pending];
      if !first.hasRun { return; }
      if first.concurrency == M.Exclusive {
        if runningSafe > 0 { return; }
        exclusiveRunning := true;
        Start(pending);
        return;
      }
      var index := pending;
      while index < |entries|
        invariant index <= |entries| == |start.entries|
        invariant M.PumpSafe(start, pending) == M.PumpSafe(State(), index)
      {
        if runningSafe >= maxSafeConcurrency { break; }
        var entry := entries[index];
        if entry.started || entry.ready { index := index + 1; continue; }
        if entry.concurrency == M.Exclusive || !entry.hasRun { break; }
        runningSafe := runningSafe + 1;
        Start(index);
        index := index + 1;
      }
    }

    method Start(index: nat)
      requires index < |entries|
      modifies this
      ensures State() == M.StartBody(old(State()), index)
    {
      entries := entries[index := entries[index].(started := true, body := M.Running)];
      trace := trace + [M.Start(index)];
    }

    /** `#commitReady` up to its first `await`. */
    method CommitReady()
      modifies this
      ensures State() == M.CommitReady(old(State()))
    {
      if committing || failed != M.Undefined { return; }
      committing := true;
      CommitLoop();
    }

    /** The head of the commit loop: call the due commit and wait, or leave the loop. */
    method CommitLoop()
      modifies this
      ensures State() == M.CommitLoop(old(State()))
    {
      if nextCommit < |entries| && entries[nextCommit].ready && entries[nextCommit].hasCommit {
        trace := trace + [M.CommitCall(nextCommit, entries[nextCommit].value)];
      } else {
        committing := false;
      }
    }

    method Fail(error: M.Thrown)
      modifies this
      ensures State() == M.Fail(old(State()), error)
    {
      if failed != M.Undefined { return; }
      failed := error;
      var index := nextCommit;
      while index < |entries|
        invariant |entries| == |old(entries)| && (index <= |entries| || index == nextCommit)
        invariant State() == old(State()).(failed := error, entries := entries)
        invariant forall k :: 0 <= k < |entries| ==>
          entries[k] == if nextCommit <= k < index then M.Reject(old(entries)[k], error) else old(entries)[k]
      {
        entries := entries[index := M.Reject(entries[index], error)];
        index := index + 1;
      }
      assert entries == M.RejectFrom(old(entries), nextCommit, error);
    }

    // ----- promise continuations -----

    method BodyFinished(index: nat, value: T)
      requires M.Enabled(State(), M.DoBodyFinished(index, value))
      modifies this
      ensures State() == M.Apply(old(State()), M.DoBodyFinished(index, value))
      ensures |entries| == |old(entries)| && index < |entries|
      ensures entries[index].value == Some(value) && entries[index].ready
      ensures forall k :: 0 <= k < |entries| && k != index ==> entries[k] == old(entries)[k]
    {
      entries := entries[index := entries[index].(value := Some(value), ready := true, body := M.Settling)];
      CommitReady();
    }

    method BodyFailed(index: nat, error: M.Thrown)
      requires M.Enabled(State(), M.DoBodyFailed(index, error))
      modifies this
      ensures State() == M.Apply(old(State()), M.DoBodyFailed(index, error))
    {
      entries := entries[index := entries[index].(body := M.Stuck)];
      Fail(error);
    }

    method SlotSettled(index: nat)
      requires M.Enabled(State(), M.DoSlotSettled(index))
      modifies this
      ensures State() == M.Apply(old(State()), M.DoSlotSettled(index))
    {
      if entries[index].concurrency == M.Safe {
        runningSafe := runningSafe - 1;
      } else {
        exclusiveRunning := false;
      }
      entries := entries[index := entries[index].(hasRun := false, body := M.Released)];
      trace := trace + [M.Release(index)];
      Pump();
    }

    method SettleFailed(index: nat, error: M.Thrown)
      requires M.Enabled(State(), M.DoSettleFailed(index, error))
      modifies this
      ensures State() == M.Apply(old(State()), M.DoSettleFailed(index, error))
    {
      entries := entries[index := entries[index].(body := M.Stuck)];
      Fail(error);
    }

    /** The awaited commit succeeded: resolve, step, and go round the loop even if `#failed` is set. */
    method CommitFinished()
      requires M.Enabled(State(), M.DoCommitFinished)
      modifies this
      ensures State() == M.Apply(old(State()), M.DoCommitFinished)
    {
      entries := entries[nextCommit := M.Resolve(entries[nextCommit])];
      trace := trace + [M.CommitDone(nextCommit)];
      nextCommit := nextCommit + 1;
      CommitLoop();
    }

    method CommitFailed(error: M.Thrown)
      requires M.Enabled(State(), M.DoCommitFailed(error))
      modifies this
      ensures State() == M.Apply(old(State()), M.DoCommitFailed(error))
    {
      Fail(error);
      committing := false;
    }
  }
}
