/** The tool executor as an object. */
module Executor {
  // Each method is one stretch of code between awaits, proved to take the step of the same name
  // in ExecutorModel; the scheduler is an object inside.

  import opened Wrappers
  import S = SchedulerModel
  import Scheduler
  import M = ExecutorModel

  datatype ExecutionError = PersistedCallMismatch | ToolResultMismatch | SchedulerFailed

  /** How a call of `execute` or `complete` was answered before its first await. */
  datatype Reply = Joined | Started

  class ToolExecutor {
    const scheduler: Scheduler.OrderedToolScheduler<M.Terminal>
    var log: seq<M.Event>
    var orders: seq<M.Order>
    var recordedCalls: map<M.CallId, nat>
    var executionRecords: map<M.CallId, M.Record>
    var completionRecords: map<M.CallId, M.Record>
    var appendLanded: bool

    ghost function State(): M.State
      reads this, scheduler
    {
      M.State(log, scheduler.State(), orders, recordedCalls, executionRecords, completionRecords, appendLanded)
    }

    /** A process starts with empty maps over the log it finds. */
    constructor (durable: seq<M.Event>, maxSafeConcurrency: real)
      ensures fresh(scheduler)
      ensures State() == M.Boot(durable, if maxSafeConcurrency.Floor < 1 then 1 else maxSafeConcurrency.Floor)
    {
      scheduler := new Scheduler.OrderedToolScheduler<M.Terminal>(maxSafeConcurrency);
      log, orders, recordedCalls := durable, [], map[];
      executionRecords, completionRecords, appendLanded := map[], map[], false;
    }

    /** `registerCall`, up to the persistence it starts. */
    method RegisterCall(call: M.CallId, identity: string, concurrency: S.Concurrency, rehydrate: bool)
      returns (r: Result<nat, ExecutionError>)
      modifies this, scheduler
      ensures State() == M.Register(old(State()), call, identity, concurrency, rehydrate).1
      ensures r.Ok? <==> M.Register(old(State()), call, identity, concurrency, rehydrate).0.Some?
      ensures r.Ok? ==> Some(r.value) == M.Register(old(State()), call, identity, concurrency, rehydrate).0
    {
      if call in recordedCalls {
        var existing := recordedCalls[call];
        if existing >= |orders| || orders[existing].identity != identity { return Err(PersistedCallMismatch); }
        return Ok(existing);
      }
      var registered := scheduler.Register(concurrency);
      if registered.Err? { return Err(SchedulerFailed); }
      var order := |orders|;
      orders := orders + [M.Order(call, identity, if rehydrate then M.Reading else M.Appending, M.NoOutcome)];
      recordedCalls := recordedCalls[call := order];
      return Ok(order);
    }

    method RecordCall(call: M.CallId, identity: string, concurrency: S.Concurrency)
      returns (r: Result<nat, ExecutionError>)
      modifies this, scheduler
      ensures State() == M.Apply(old(State()), M.RecordCall(call, identity, concurrency))
    {
      r := RegisterCall(call, identity, concurrency, false);
    }

    /** `execute` and `complete` up to their first await. */
    method Begin(call: M.CallId, identity: string, concurrency: S.Concurrency, lane: M.Lane)
      returns (r: Result<Reply, ExecutionError>)
      modifies this, scheduler
      ensures State() == M.Apply(old(State()), M.Start(call, identity, concurrency, lane))
      ensures r == Ok(Joined) ==>
        call in old(executionRecords) || call in old(completionRecords)
      ensures r == Ok(Started) ==> call in M.Records(State(), lane) && call !in M.Records(old(State()), lane)
    {
      if call in executionRecords {
        if executionRecords[call].identity != identity { return Err(PersistedCallMismatch); }
        return Ok(Joined);
      }
      if call in completionRecords {
        var existing := completionRecords[call];
        if existing.identity != identity { return Err(PersistedCallMismatch); }
        if lane.Completion? && existing.lane != lane { return Err(ToolResultMismatch); }
        return Ok(Joined);
      }
      var registration := RegisterCall(call, identity, concurrency, true);
      if registration.Err? { return Err(registration.error); }
      Put(call, M.Record(identity, lane, registration.value, M.AwaitPersisted));
      return Ok(Started);
    }

    method Put(call: M.CallId, record: M.Record)
      modifies this
      ensures State() == M.PutRecord(old(State()), call, record)
    {
      if record.lane.Execution? {
        executionRecords := executionRecords[call := record];
      } else {
        completionRecords := completionRecords[call := record];
      }
    }

    /** The `catch` of an operation deletes its own record. */
    method Drop(call: M.CallId, lane: M.Lane)
      modifies this
      ensures State() == M.DropRecord(old(State()), call, lane)
    {
      if lane.Execution? {
        executionRecords := executionRecords - {call};
      } else {
        completionRecords := completionRecords - {call};
      }
    }

    // ----- persistence of a registration -----

    method PersistRead(order: nat)
      requires M.Enabled(State(), M.DoPersistRead(order))
      modifies this
      ensures State() == M.Apply(old(State()), M.DoPersistRead(order))
    {
      var durable := M.FirstCall(log, orders[order].call);
      if durable.None? {
        orders := orders[order := orders[order].(persist := M.Appending)];
      } else if durable.value == orders[order].identity {
        orders := orders[order := orders[order].(persist := M.Persisted)];
      } else {
        PersistFailed(order);
      }
    }

    method PersistAppended(order: nat)
      requires M.Enabled(State(), M.DoPersistAppended(order))
      modifies this
      ensures State() == M.Apply(old(State()), M.DoPersistAppended(order))
      ensures log == old(log) + [M.ToolCall(old(orders)[order].call, old(orders)[order].identity)]
    {
      log := log + [M.ToolCall(orders[order].call, orders[order].identity)];
      orders := orders[order := orders[order].(persist := M.Persisted)];
    }

    method PersistFailed(order: nat)
      requires M.Enabled(State(), M.DoPersistFailed(order))
      modifies this
      ensures State() == M.Apply(old(State()), M.DoPersistFailed(order))
    {
      var call := orders[order].call;
      orders := orders[order := orders[order].(persist := M.PersistFailed)];
      if call in recordedCalls && recordedCalls[call] == order {
        recordedCalls := recordedCalls - {call};
      }
    }

    // ----- the awaits of an operation -----

    method AfterPersisted(call: M.CallId, lane: M.Lane)
      requires M.Enabled(State(), M.DoAfterPersisted(call, lane))
      modifies this
      ensures State() == M.Apply(old(State()), M.DoAfterPersisted(call, lane))
    {
      var record := M.LaneOf(executionRecords, completionRecords, lane)[call];
      if orders[record.order].persist == M.PersistFailed {
        Drop(call, lane);
      } else {
        Put(call, record.(lane := lane, phase := M.AwaitRead));
      }
    }

    /** `persistedTerminalResult` returned, or threw on a duplicate. */
    method AfterRead(call: M.CallId, lane: M.Lane)
      requires M.Enabled(State(), M.DoAfterRead(call, lane))
      modifies this
      ensures State() == M.Apply(old(State()), M.DoAfterRead(call, lane))
    {
      if M.Results(log, call) > 1 {
        Drop(call, lane);
      } else {
        var record := M.LaneOf(executionRecords, completionRecords, lane)[call];
        Put(call, record.(lane := lane, phase := M.HaveRead(M.FirstResult(log, call))));
      }
    }

    method ReadFailed(call: M.CallId, lane: M.Lane)
      requires M.Enabled(State(), M.DoReadFailed(call, lane))
      modifies this
      ensures State() == M.Apply(old(State()), M.DoReadFailed(call, lane))
    {
      Drop(call, lane);
    }

    /** Hands the order to the scheduler with a commit that stores, or one that does nothing. */
    method Dispatch(call: M.CallId, lane: M.Lane)
      requires M.Enabled(State(), M.DoDispatch(call, lane))
      modifies this, scheduler
      ensures State() == M.Apply(old(State()), M.DoDispatch(call, lane))
    {
      var record := M.LaneOf(executionRecords, completionRecords, lane)[call];
      var order, durable := record.order, record.phase.durable;
      if lane.Completion? && durable.Some? && durable.value != lane.supplied {
        Drop(call, lane);
        return;
      }
      var accepted: Result<(), Scheduler.SchedulerError>;
      if lane.Completion? {
        accepted := scheduler.Complete(order, lane.supplied);
      } else if durable.Some? {
        accepted := scheduler.Complete(order, durable.value);
      } else {
        accepted := scheduler.Execute(order);
      }
      if accepted.Err? {
        Drop(call, lane);
        return;
      }
      orders := orders[order := orders[order].(kind := if durable.Some? then M.Noop else M.Store)];
      Put(call, record.(lane := lane, phase := M.AwaitResult));
    }

    method AfterResult(call: M.CallId, lane: M.Lane)
      requires M.Enabled(State(), M.DoAfterResult(call, lane))
      modifies this
      ensures State() == M.Apply(old(State()), M.DoAfterResult(call, lane))
    {
      var record := M.LaneOf(executionRecords, completionRecords, lane)[call];
      var promise := scheduler.entries[record.order].promise;
      if promise.Rejected? {
        Drop(call, lane);
      } else if promise.Resolved? && promise.result.Some? {
        Put(call, record.(lane := lane, phase := M.Done(promise.result.value)));
      }
    }

    // ----- the commit of the scheduler -----

    /** `storeResult`'s append becomes durable. */
    method StoreLands()
      requires M.Enabled(State(), M.DoStoreLands)
      modifies this
      ensures State() == M.Apply(old(State()), M.DoStoreLands)
    {
      var order := scheduler.nextCommit;
      log := log + [M.ToolResult(orders[order].call, scheduler.entries[order].value.value)];
      appendLanded := true;
    }

    method CommitFinished()
      requires M.Enabled(State(), M.DoCommitFinished)
      modifies this, scheduler
      ensures State() == M.Apply(old(State()), M.DoCommitFinished)
    {
      scheduler.CommitFinished();
      appendLanded := false;
    }

    method CommitFailed(error: S.Thrown)
      requires M.Enabled(State(), M.DoCommitFailed(error))
      modifies this, scheduler
      ensures State() == M.Apply(old(State()), M.DoCommitFailed(error))
    {
      scheduler.CommitFailed(error);
    }
  }
}
