/** Waiters and the log. */
module RecordingOrigins {
  // The gate and the log of a run described by the actions of the run: which `beforeStep` promises are
  // resolved and which wait, and what each observed part contributed to the log.

  import opened Wrappers
  import opened RecordingModel
  import opened RecordingSafety

  // ----- the actions of a run -----

  /** The parts observed, in order. */
  function Observed(acts: seq<Action>): seq<Part> {
    if acts == [] then []
    else
      var last := acts[|acts| - 1];
      Observed(acts[..|acts| - 1]) + if last.DoObserve? then [last.part] else []
  }

  /** What `mapEvents` returned, in order. */
  function Returned(acts: seq<Action>): seq<seq<Event>> {
    if acts == [] then []
    else
      var last := acts[|acts| - 1];
      Returned(acts[..|acts| - 1]) + if last.DoFinishMap? then [last.events] else []
  }

  lemma ProjectionsSnoc(past: seq<Action>, a: Action)
    ensures Observed(past + [a]) == Observed(past) + if a.DoObserve? then [a.part] else []
    ensures Returned(past + [a]) == Returned(past) + if a.DoFinishMap? then [a.events] else []
  {
    assert (past + [a])[..|past|] == past;
  }

  // ----- the gate -----

  predicate Waiting(g: Gate, step: int, waiter: nat) {
    step in g.waiting && waiter in g.waiting[step]
  }

  /** Each waiter that came is resolved when its step is due and parked otherwise; nobody else is anywhere. */
  ghost predicate GateExact(g: Gate, acts: seq<Action>) {
    && (forall n: int, w: nat :: (n, w) in g.released <==> DoBeforeStep(n, w) in acts && n <= g.persistedSteps)
    && (forall n: int, w: nat :: Waiting(g, n, w) <==> DoBeforeStep(n, w) in acts && n > g.persistedSteps)
  }

  lemma BeforeStepExact(g: Gate, acts: seq<Action>, step: int, waiter: nat)
    requires GateExact(g, acts)
    ensures GateExact(BeforeStep(g, step, waiter), acts + [DoBeforeStep(step, waiter)])
  {
    var u, more := BeforeStep(g, step, waiter), acts + [DoBeforeStep(step, waiter)];
    forall n: int, w: nat ensures (n, w) in u.released <==> DoBeforeStep(n, w) in more && n <= u.persistedSteps {
      assert (n, w) in g.released <==> DoBeforeStep(n, w) in acts && n <= g.persistedSteps;
    }
    forall n: int, w: nat ensures Waiting(u, n, w) <==> DoBeforeStep(n, w) in more && n > u.persistedSteps {
      assert Waiting(g, n, w) <==> DoBeforeStep(n, w) in acts && n > g.persistedSteps;
    }
  }

  lemma OtherExact(g: Gate, acts: seq<Action>, a: Action)
    requires GateExact(g, acts) && !a.DoBeforeStep?
    ensures GateExact(g, acts + [a])
  {
    assert forall n: int, w: nat :: DoBeforeStep(n, w) in acts + [a] <==> DoBeforeStep(n, w) in acts;
  }

  lemma PartPersistedExact(g: Gate, acts: seq<Action>, p: Part)
    requires GateExact(g, acts)
    ensures GateExact(PartPersisted(g, p), acts)
  {
    var u := PartPersisted(g, p);
    if p.kind == "finish-step" {
      forall n: int, w: nat ensures (n, w) in u.released <==> DoBeforeStep(n, w) in acts && n <= u.persistedSteps {
        assert (n, w) in g.released <==> DoBeforeStep(n, w) in acts && n <= g.persistedSteps;
        assert Waiting(g, n, w) <==> DoBeforeStep(n, w) in acts && n > g.persistedSteps;
      }
      forall n: int, w: nat ensures Waiting(u, n, w) <==> DoBeforeStep(n, w) in acts && n > u.persistedSteps {
        assert Waiting(g, n, w) <==> DoBeforeStep(n, w) in acts && n > g.persistedSteps;
      }
    }
  }

  lemma {:induction false} PartsPersistedExact(g: Gate, acts: seq<Action>, parts: seq<Part>)
    requires GateExact(g, acts)
    ensures GateExact(PartsPersisted(g, parts), acts)
  {
    hide GateExact, PartPersisted;
    if parts != [] {
      var n := |parts| - 1;
      PartsPersistedExact(g, acts, parts[..n]);
      PartPersistedExact(PartsPersisted(g, parts[..n]), acts, parts[n]);
    }
  }

  // ----- what was observed and mapped -----

  /** The mapped parts with what `mapEvents` returned for them. */
  ghost predicate MappedExact(s: State, acts: seq<Action>) {
    && s.observed == Observed(acts)
    && |s.mapped| == |Returned(acts)|
    && forall i :: 0 <= i < |s.mapped| ==> s.mapped[i].events == Returned(acts)[i]
  }

  ghost predicate Exact(s: State, acts: seq<Action>) {
    GateExact(s.gate, acts) && MappedExact(s, acts)
  }

  lemma StepGate(s: State, a: Action, acts: seq<Action>)
    requires GateExact(s.gate, acts) && Enabled(s, a)
    ensures GateExact(Apply(s, a).gate, acts + [a])
  {
    hide GateExact, BeforeStep, PartsPersisted, Output;
    if a.DoBeforeStep? {
      BeforeStepExact(s.gate, acts, a.step, a.waiter);
    } else {
      OtherExact(s.gate, acts, a);
      if a.DoWorkDone? { PartsPersistedExact(s.gate, acts + [a], s.running.value.parts); }
    }
  }

  lemma FlushMaps(s: State)
    ensures Flush(s).observed == s.observed && Flush(s).mapped == s.mapped
  {
  }

  lemma FinishMaps(s: State, events: seq<Event>)
    requires s.mapping.Some?
    ensures FinishMap(s, events).observed == s.observed
    ensures FinishMap(s, events).mapped == s.mapped + [Mapped(s.mapping.value, events)]
  {
    hide Output;
  }

  lemma StepMapped(s: State, a: Action, acts: seq<Action>)
    requires MappedExact(s, acts) && Enabled(s, a)
    ensures MappedExact(Apply(s, a), acts + [a])
  {
    hide BeforeStep, PartsPersisted, Flush, FinishMap, Observed, Returned;
    ProjectionsSnoc(acts, a);
    FlushMaps(s);
    if a.DoFinishMap? { FinishMaps(s, a.events); }
  }

  lemma {:induction false} RunExact(s: State, acts: seq<Action>, past: seq<Action>)
    requires Exact(s, past) && ValidRun(s, acts)
    ensures Exact(Run(s, acts), past + acts)
    decreases |acts|
  {
    hide GateExact, MappedExact, Apply, Enabled;
    if acts == [] {
      assert past + acts == past;
    } else {
      StepGate(s, acts[0], past);
      StepMapped(s, acts[0], past);
      RunExact(Apply(s, acts[0]), acts[1..], past + [acts[0]]);
      assert past + acts == (past + [acts[0]]) + acts[1..];
    }
  }

  lemma InitRunExact(acts: seq<Action>)
    requires ValidRun(Init(), acts)
    ensures Exact(Run(Init(), acts), acts)
  {
    hide Run, ValidRun;
    assert Exact(Init(), []);
    RunExact(Init(), acts, []);
    assert [] + acts == acts;
  }

  /**
   The gate on every run: each `beforeStep(n)` that came is resolved exactly when n `finish-step` parts
   are persisted, and until then it is parked under its step; nobody else is resolved or parked.
   */
  lemma EveryWaiterResolvedWhenDue(acts: seq<Action>, n: int, waiter: nat)
    requires ValidRun(Init(), acts)
    ensures var t := Run(Init(), acts);
      && ((n, waiter) in t.gate.released <==> DoBeforeStep(n, waiter) in acts && n <= Finishes(t.persisted))
      && ((n in t.gate.waiting && waiter in t.gate.waiting[n]) <==>
            DoBeforeStep(n, waiter) in acts && n > Finishes(t.persisted))
  {
    hide Run, ValidRun, Finishes, Outputs;
    InitInv();
    RunKeepsInv(Init(), acts);
    InitRunExact(acts);
    var t := Run(Init(), acts);
    assert Waiting(t.gate, n, waiter) <==> DoBeforeStep(n, waiter) in acts && n > t.gate.persistedSteps;
  }

  // ----- what a part contributes -----

  /**
   A part contributes its events; one without events a diagnostic of its kind and content, if it is a
   delta, a tool part or the end of a stream, and nothing otherwise.
   */
  ghost predicate Contributes(m: Mapped, stretch: seq<Event>) {
    var diagnosed := m.part.kind in
      ["text-delta", "reasoning-delta", "tool-call", "tool-result", "tool-error", "finish", "abort", "error"];
    && (m.events != [] ==> stretch == m.events)
    && (m.events == [] && diagnosed ==> stretch == [Diagnostic(m.part.kind, m.part.body)])
    && (m.events == [] && !diagnosed ==> stretch == [])
  }

  /** The log cut at `at` is made of one stretch per mapped part. */
  ghost predicate CutInto(log: seq<Event>, ms: seq<Mapped>, at: seq<nat>) {
    && |at| == |ms| + 1 && at[0] == 0 && at[|ms|] == |log|
    && forall i: nat :: i < |ms| ==> Stretch(log, ms[i], at, i)
  }

  ghost predicate Stretch(log: seq<Event>, m: Mapped, at: seq<nat>, i: nat) {
    i + 1 < |at| && at[i] <= at[i + 1] <= |log| && Contributes(m, log[at[i]..at[i + 1]])
  }

  lemma OutputContributes(m: Mapped)
    ensures Contributes(m, Output(m))
  {
  }

  lemma {:induction false} OutputsAreCut(ms: seq<Mapped>) returns (at: seq<nat>)
    ensures CutInto(Outputs(ms), ms, at)
  {
    hide Output, Contributes;
    if ms == [] {
      at := [0];
    } else {
      var n := |ms| - 1;
      var before := OutputsAreCut(ms[..n]);
      var log, all := Outputs(ms[..n]), Outputs(ms);
      at := before + [|all|];
      OutputContributes(ms[n]);
      forall i: nat | i < |ms| ensures Stretch(all, ms[i], at, i) {
        if i < n {
          assert Stretch(log, ms[..n][i], before, i);
          assert all[at[i]..at[i + 1]] == log[before[i]..before[i + 1]];
        } else {
          assert all[at[n]..at[n + 1]] == Output(ms[n]);
        }
      }
    }
  }

  /**
   The log on every run, in terms of what happened: it is cut into one stretch for each of the first
   observed parts, in order, and the stretch of a part is what `mapEvents` returned for it, or its
   diagnostic.
   */
  lemma LogIsExplained(acts: seq<Action>)
    requires ValidRun(Init(), acts)
    ensures var t := Run(Init(), acts);
      && t.observed == Observed(acts)
      && |t.persisted| <= |t.mapped| == |Returned(acts)| <= |t.observed|
      && (forall i :: 0 <= i < |t.mapped| ==> t.mapped[i] == Mapped(Observed(acts)[i], Returned(acts)[i]))
      && exists at :: CutInto(t.log, t.mapped[..|t.persisted|], at)
  {
    hide Run, ValidRun, Finishes, Outputs, CutInto, GateExact, Observed, Returned;
    InitInv();
    RunKeepsInv(Init(), acts);
    InitRunExact(acts);
    var t := Run(Init(), acts);
    var at := OutputsAreCut(t.mapped[..|t.persisted|]);
    forall i | 0 <= i < |t.mapped| ensures t.mapped[i] == Mapped(Observed(acts)[i], Returned(acts)[i]) {
      assert t.mapped[i].part == Parts(t.mapped)[i];
    }
  }

  // ----- when batches go out -----

  /**
   A mapped part of chunks joins the batch, which goes out as one work exactly when it holds 32 events or
   more and otherwise waits with the timer running; any other part sends a waiting batch ahead and goes by
   itself, with what it contributes. What was in the lane stays before it.
   */
  lemma BatchesFill(s: State, events: seq<Event>)
    requires Enabled(s, DoFinishMap(events))
    ensures var t, part := Apply(s, DoFinishMap(events)), s.mapping.value;
      var batch, parts := s.pendingEvents + events, s.pendingParts + [part];
      && (events != [] && (forall e :: e in events ==> e.Chunk?) ==>
            if |batch| >= 32 then t.lane == s.lane + [Work(batch, parts)] && t.pendingEvents == [] && t.pendingParts == [] && !t.timer
            else t.lane == s.lane && t.pendingEvents == batch && t.pendingParts == parts && t.timer)
      && (events == [] || (exists e :: e in events && !e.Chunk?) ==>
            && |t.lane| == |s.lane| + (if s.pendingEvents == [] then 1 else 2) && s.lane <= t.lane
            && (s.pendingEvents != [] ==> t.lane[|s.lane|] == Work(s.pendingEvents, s.pendingParts))
            && t.pendingEvents == [] && !t.timer
            && t.lane[|t.lane| - 1].parts == [part]
            && Contributes(Mapped(part, events), t.lane[|t.lane| - 1].events))
  {
    hide Output;
    OutputContributes(Mapped(s.mapping.value, events));
    assert AllChunks(events) <==> events != [] && forall e :: e in events ==> e.Chunk?;
  }
}
