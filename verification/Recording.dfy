/** Gate and recorder as objects. */
module Recording {
  // Their methods are the public calls and the promise continuations, proved to take the steps
  // of RecordingModel.

  import opened Wrappers
  import M = RecordingModel

  method SomeKey<T(==)>(s: set<T>) returns (x: T)
    requires s != {}
    ensures x in s
  {
    x :| x in s;
  }

  class StepPersistenceGate {
    var persistedSteps: nat
    var waiters: map<int, set<nat>>
    ghost var released: set<(int, nat)>

    ghost function State(): M.Gate
      reads this
    {
      M.Gate(persistedSteps, waiters, released)
    }

    constructor ()
      ensures State() == M.Init().gate
    {
      persistedSteps, waiters, released := 0, map[], {};
    }

    /** Resolved at once, or parked under its step number. */
    method BeforeStep(step: int, waiter: nat) returns (resolved: bool)
      modifies this
      ensures State() == M.BeforeStep(old(State()), step, waiter)
      ensures resolved <==> step <= old(persistedSteps)
    {
      if step <= persistedSteps {
        released := released + {(step, waiter)};
        return true;
      }
      var pending := if step in waiters then waiters[step] else {};
      waiters := waiters[step := pending + {waiter}];
      return false;
    }

    /** Counts a persisted `finish-step` and resolves every waiter it makes due. */
    method PartPersisted(part: M.Part)
      modifies this
      ensures State() == M.PartPersisted(old(State()), part)
      ensures part.kind == "finish-step" ==>
        && persistedSteps == old(persistedSteps) + 1
        && (forall k, w :: k in old(waiters) && w in old(waiters)[k] ==>
              if k <= persistedSteps then (k, w) in released else k in waiters && w in waiters[k])
    {
      if part.kind != "finish-step" { return; }
      persistedSteps := persistedSteps + 1;
      var todo: set<int> := waiters.Keys;
      while todo != {}
        invariant persistedSteps == old(persistedSteps) + 1
        invariant todo <= waiters.Keys <= old(waiters).Keys
        invariant forall k :: k in old(waiters) ==> (k in waiters <==> k > persistedSteps || k in todo)
        invariant forall k :: k in waiters ==> waiters[k] == old(waiters)[k]
        invariant released == old(released) +
          set k, w | k in old(waiters) && k !in waiters && w in old(waiters)[k] :: (k, w)
        decreases |todo|
      {
        var step := SomeKey(todo);
        todo := todo - {step};
        if step <= persistedSteps {
          released := released + set w | w in waiters[step] :: (step, w);
          waiters := waiters - {step};
        }
      }
      ghost var expected := M.PartPersisted(old(State()), part);
      assert waiters.Keys == expected.waiting.Keys;
      assert waiters == expected.waiting;
    }
  }

  class StreamRecording {
    const gate: StepPersistenceGate
    ghost var observed: seq<M.Part>
    ghost var mapped: seq<M.Mapped>
    var recording: seq<M.Part>
    var mapping: Option<M.Part>
    var pendingChunkEvents: seq<M.Event>
    var pendingChunkParts: seq<M.Part>
    var chunkTimer: bool
    var persistence: seq<M.Work>
    var running: Option<M.Work>
    var persistenceFailure: bool
    var log: seq<M.Event>
    ghost var persisted: seq<M.Part>

    ghost function State(): M.State
      reads this, gate
    {
      M.State(observed, mapped, recording, mapping, pendingChunkEvents, pendingChunkParts, chunkTimer,
              persistence, running, persistenceFailure, log, persisted, gate.State())
    }

    constructor ()
      ensures State() == M.Init() && fresh(gate)
    {
      gate := new StepPersistenceGate();
      observed, mapped, recording, mapping := [], [], [], None;
      pendingChunkEvents, pendingChunkParts, chunkTimer := [], [], false;
      persistence, running, persistenceFailure, log, persisted := [], None, false, [], [];
    }

    /** `transform`: the part joins the mapping lane without holding the visible stream back. */
    method EnqueueRecording(part: M.Part)
      modifies this
      ensures State() == M.Apply(old(State()), M.DoObserve(part))
    {
      recording := recording + [part];
      observed := observed + [part];
    }

    method StartMapping()
      requires M.Enabled(State(), M.DoStartMap)
      modifies this
      ensures State() == M.Apply(old(State()), M.DoStartMap)
    {
      var part := recording[0];
      recording := recording[1..];
      if !persistenceFailure { mapping := Some(part); }
    }

    /** `mapEvents` resolved: chunks are batched, anything else flushes the batch and goes by itself. */
    method MappingFinished(events: seq<M.Event>)
      requires M.Enabled(State(), M.DoFinishMap(events))
      modifies this
      ensures State() == M.Apply(old(State()), M.DoFinishMap(events))
    {
      var part := mapping.value;
      mapping := None;
      mapped := mapped + [M.Mapped(part, events)];
      if events != [] && M.AllChunks(events) {
        QueueChunkBatch(part, events);
        return;
      }
      FlushChunkBatch();
      var diagnostic := M.DiagnosticOf(part);
      var output := if events != [] then events else if diagnostic.Some? then [diagnostic.value] else [];
      persistence := persistence + [M.Work(output, [part])];
    }

    method MappingFailed()
      requires M.Enabled(State(), M.DoFailMap)
      modifies this
      ensures State() == M.Apply(old(State()), M.DoFailMap)
    {
      mapping, persistenceFailure := None, true;
    }

    method FlushChunkBatch()
      modifies this
      ensures State() == M.Flush(old(State()))
    {
      chunkTimer := false;
      if pendingChunkEvents == [] { return; }
      persistence := persistence + [M.Work(pendingChunkEvents, pendingChunkParts)];
      pendingChunkEvents, pendingChunkParts := [], [];
    }

    method QueueChunkBatch(part: M.Part, events: seq<M.Event>)
      modifies this
      ensures State() == M.QueueChunks(old(State()), part, events)
    {
      pendingChunkEvents := pendingChunkEvents + events;
      pendingChunkParts := pendingChunkParts + [part];
      if |pendingChunkEvents| >= M.BATCH {
        FlushChunkBatch();
        return;
      }
      chunkTimer := true;
    }

    method StartPersistence()
      requires M.Enabled(State(), M.DoStartWork)
      modifies this
      ensures State() == M.Apply(old(State()), M.DoStartWork)
    {
      var work := persistence[0];
      persistence := persistence[1..];
      if !persistenceFailure { running := Some(work); }
    }

    /** The append of the running work succeeded: report its parts to the gate one by one. */
    method PersistenceFinished()
      requires M.Enabled(State(), M.DoWorkDone)
      modifies this, gate
      ensures State() == M.Apply(old(State()), M.DoWorkDone)
    {
      var work := running.value;
      running := None;
      log := log + work.events;
      var i := 0;
      while i < |work.parts|
        invariant i <= |work.parts|
        invariant gate.State() == M.PartsPersisted(old(gate.State()), work.parts[..i])
        invariant State() == old(State()).(running := None, log := old(log) + work.events, gate := gate.State())
      {
        gate.PartPersisted(work.parts[i]);
        assert work.parts[..i + 1][..i] == work.parts[..i];
        i := i + 1;
      }
      assert work.parts[..i] == work.parts;
      persisted := persisted + work.parts;
    }

    method PersistenceFailed()
      requires M.Enabled(State(), M.DoWorkFailed)
      modifies this
      ensures State() == M.Apply(old(State()), M.DoWorkFailed)
    {
      running, persistenceFailure := None, true;
    }
  }
}
