/** Batching refines recording. */
module RecordingSafety {
  // Batched recording refines recording part by part, and the step gate opens on time.

  import opened Wrappers
  import opened RecordingModel

  /** The unbatched log: the output of each mapped part in order. */
  function Outputs(ms: seq<Mapped>): seq<Event> {
    if ms == [] then [] else Outputs(ms[..|ms| - 1]) + Output(ms[|ms| - 1])
  }

  function Parts(ms: seq<Mapped>): (r: seq<Part>)
    ensures |r| == |ms| && forall i :: 0 <= i < |ms| ==> r[i] == ms[i].part
  {
    seq(|ms|, i requires 0 <= i < |ms| => ms[i].part)
  }

  function Finishes(parts: seq<Part>): nat {
    if parts == [] then 0
    else Finishes(parts[..|parts| - 1]) + if parts[|parts| - 1].kind == "finish-step" then 1 else 0
  }

  /** Work that carries the outputs of the mapped parts `ms[from..to]`. */
  ghost predicate Carries(w: Work, ms: seq<Mapped>, from: nat, to: nat) {
    from <= to <= |ms| && w.parts == Parts(ms[from..to]) && w.events == Outputs(ms[from..to])
  }

  /** The works of the lane carry consecutive stretches of `ms`, from `from` up to `to`. */
  ghost predicate LaneCarries(lane: seq<Work>, ms: seq<Mapped>, from: nat, to: nat)
    decreases |lane|
  {
    if lane == [] then from == to
    else
      var mid := from + |lane[0].parts|;
      Carries(lane[0], ms, from, mid) && LaneCarries(lane[1..], ms, mid, to)
  }

  ghost predicate GateOk(g: Gate, persisted: seq<Part>) {
    && g.persistedSteps == Finishes(persisted)
    && (forall k :: k in g.waiting ==> k > g.persistedSteps)
    && (forall k, w :: (k, w) in g.released ==> k <= g.persistedSteps)
  }

  function RunningCount(s: State): nat {
    if s.running.Some? then |s.running.value.parts| else 0
  }

  ghost predicate Inv(s: State) {
    var done := |s.persisted|;
    var taken := done + RunningCount(s);
    && taken <= |s.mapped| <= |s.observed|
    && Parts(s.mapped) <= s.observed
    && s.persisted == Parts(s.mapped[..done]) && s.log == Outputs(s.mapped[..done])
    && (s.running.Some? ==> Carries(s.running.value, s.mapped, done, taken))
    && (s.mapping.Some? ==> Parts(s.mapped) + [s.mapping.value] <= s.observed)
    && (!s.failed ==>
          && s.observed == Parts(s.mapped) + (if s.mapping.Some? then [s.mapping.value] else []) + s.queue
          && |s.pendingParts| <= |s.mapped|
          && LaneCarries(s.lane, s.mapped, taken, |s.mapped| - |s.pendingParts|)
          && Carries(Work(s.pendingEvents, s.pendingParts), s.mapped, |s.mapped| - |s.pendingParts|, |s.mapped|))
    && (s.pendingEvents == [] <==> s.pendingParts == [])
    && (s.timer <==> s.pendingEvents != [])
    && |s.pendingEvents| < BATCH
    && GateOk(s.gate, s.persisted)
  }

  // ----- sequences -----

  lemma {:induction false} OutputsConcat(a: seq<Mapped>, b: seq<Mapped>)
    ensures Outputs(a + b) == Outputs(a) + Outputs(b)
  {
    hide Output;
    if b == [] {
      assert a + b == a;
    } else {
      var n := |b| - 1;
      OutputsConcat(a, b[..n]);
      assert (a + b)[..|a + b| - 1] == a + b[..n];
      assert (a + b)[|a + b| - 1] == b[n];
    }
  }

  lemma {:induction false} FinishesConcat(a: seq<Part>, b: seq<Part>)
    ensures Finishes(a + b) == Finishes(a) + Finishes(b)
  {
    if b == [] {
      assert a + b == a;
    } else {
      var n := |b| - 1;
      FinishesConcat(a, b[..n]);
      assert (a + b)[..|a + b| - 1] == a + b[..n];
      assert (a + b)[|a + b| - 1] == b[n];
    }
  }

  /** Carrying is not disturbed by parts mapped later. */
  lemma CarriesGrow(w: Work, ms: seq<Mapped>, m: Mapped, from: nat, to: nat)
    requires Carries(w, ms, from, to)
    ensures Carries(w, ms + [m], from, to)
  {
    assert (ms + [m])[from..to] == ms[from..to];
  }

  lemma {:induction false} LaneCarriesGrow(lane: seq<Work>, ms: seq<Mapped>, m: Mapped, from: nat, to: nat)
    requires LaneCarries(lane, ms, from, to)
    ensures LaneCarries(lane, ms + [m], from, to)
    decreases |lane|
  {
    if lane != [] {
      var mid := from + |lane[0].parts|;
      CarriesGrow(lane[0], ms, m, from, mid);
      LaneCarriesGrow(lane[1..], ms, m, mid, to);
    }
  }

  lemma {:induction false} LaneCarriesSnoc(lane: seq<Work>, w: Work, ms: seq<Mapped>, from: nat, mid: nat, to: nat)
    requires LaneCarries(lane, ms, from, mid) && Carries(w, ms, mid, to) && to == mid + |w.parts|
    ensures LaneCarries(lane + [w], ms, from, to)
    decreases |lane|
  {
    hide Carries;
    if lane == [] {
      assert lane + [w] == [w];
    } else {
      assert (lane + [w])[1..] == lane[1..] + [w];
      LaneCarriesSnoc(lane[1..], w, ms, from + |lane[0].parts|, mid, to);
    }
  }

  lemma CarriesSnoc(w: Work, ms: seq<Mapped>, from: nat)
    requires |ms| > 0 && Carries(w, ms[..|ms| - 1], from, |ms| - 1)
    ensures Carries(Work(w.events + Output(ms[|ms| - 1]), w.parts + [ms[|ms| - 1].part]), ms, from, |ms|)
  {
    var n := |ms| - 1;
    assert ms[from..] == ms[..n][from..n] + [ms[n]];
    assert ms[from..][..|ms[from..]| - 1] == ms[..n][from..n];
    assert ms[from..|ms|] == ms[from..];
  }

  // ----- the gate -----

  lemma PartPersistedOk(g: Gate, persisted: seq<Part>, p: Part)
    requires GateOk(g, persisted)
    ensures GateOk(PartPersisted(g, p), persisted + [p])
  {
    assert (persisted + [p])[..|persisted|] == persisted;
  }

  lemma {:induction false} PartsPersistedOk(g: Gate, persisted: seq<Part>, parts: seq<Part>)
    requires GateOk(g, persisted)
    ensures GateOk(PartsPersisted(g, parts), persisted + parts)
  {
    if parts == [] {
      assert persisted + parts == persisted;
    } else {
      var n := |parts| - 1;
      PartsPersistedOk(g, persisted, parts[..n]);
      PartPersistedOk(PartsPersisted(g, parts[..n]), persisted + parts[..n], parts[n]);
      assert persisted + parts[..n] + [parts[n]] == persisted + parts;
    }
  }

  // ----- each step keeps the invariant -----

  lemma FlushKeepsInv(s: State)
    requires Inv(s)
    ensures Inv(Flush(s))
  {
    hide Outputs, Finishes;
    if s.pendingEvents != [] && !s.failed {
      var w := Work(s.pendingEvents, s.pendingParts);
      var n := |s.mapped| - |s.pendingParts|;
      LaneCarriesSnoc(s.lane, w, s.mapped, |s.persisted| + RunningCount(s), n, |s.mapped|);
    }
    CarriesNothing(s.mapped);
  }

  lemma CarriesNothing(ms: seq<Mapped>)
    ensures Carries(Work([], []), ms, |ms|, |ms|)
  {
    assert ms[|ms|..|ms|] == [];
  }

  /** What is already persisted or running does not change when one more part is mapped. */
  lemma MappedPrefix(ms: seq<Mapped>, m: Mapped, n: nat)
    requires n <= |ms|
    ensures (ms + [m])[..n] == ms[..n] && Parts(ms + [m]) == Parts(ms) + [m.part]
  {
  }

  lemma StartMapKeepsInv(s: State)
    requires Inv(s) && Enabled(s, DoStartMap)
    ensures Inv(StartMap(s))
  {
    hide Outputs, Finishes, LaneCarries, Carries;
  }

  /** The mapped part joins `mapped`; nothing holds it yet. */
  function AddMapped(s: State, events: seq<Event>): State
    requires s.mapping.Some?
  {
    s.(mapping := None, mapped := s.mapped + [Mapped(s.mapping.value, events)])
  }

  /** What stays true of the persisted and running parts when one more part is mapped. */
  lemma MappedKeepsDone(s: State, m: Mapped)
    requires Inv(s) && s.mapping == Some(m.part)
    ensures var done := |s.persisted|;
      var taken := done + RunningCount(s);
      var ms := s.mapped + [m];
      && Parts(ms) <= s.observed
      && s.persisted == Parts(ms[..done]) && s.log == Outputs(ms[..done])
      && (s.running.Some? ==> Carries(s.running.value, ms, done, taken))
      && (!s.failed ==>
            && s.observed == Parts(ms) + s.queue
            && LaneCarries(s.lane, ms, taken, |s.mapped| - |s.pendingParts|)
            && Carries(Work(s.pendingEvents + Output(m), s.pendingParts + [m.part]), ms,
                       |s.mapped| - |s.pendingParts|, |ms|))
  {
    hide Outputs, Finishes, Carries, LaneCarries, GateOk;
    var done := |s.persisted|;
    var taken := done + RunningCount(s);
    var ms := s.mapped + [m];
    MappedPrefix(s.mapped, m, done);
    if s.running.Some? { CarriesGrow(s.running.value, s.mapped, m, done, taken); }
    if !s.failed {
      var n := |s.mapped| - |s.pendingParts|;
      LaneCarriesGrow(s.lane, s.mapped, m, taken, n);
      assert ms[..|ms| - 1] == s.mapped;
      CarriesSnoc(Work(s.pendingEvents, s.pendingParts), ms, n);
    }
  }

  lemma QueueChunksKeepsInv(s: State, events: seq<Event>)
    requires Inv(s) && s.mapping.Some? && AllChunks(events)
    ensures Inv(QueueChunks(AddMapped(s, events), s.mapping.value, events))
  {
    hide Outputs, Finishes, Carries, LaneCarries, GateOk, Parts;
    var m := Mapped(s.mapping.value, events);
    var ms := s.mapped + [m];
    MappedKeepsDone(s, m);
    if |s.pendingEvents + events| >= BATCH && !s.failed {
      LaneCarriesSnoc(s.lane, Work(s.pendingEvents + events, s.pendingParts + [m.part]), ms,
                      |s.persisted| + RunningCount(s), |s.mapped| - |s.pendingParts|, |ms|);
    }
    CarriesNothing(ms);
  }

  lemma SingleKeepsInv(s: State, events: seq<Event>)
    requires Inv(s) && s.mapping.Some? && s.pendingEvents == []
    ensures var p := s.mapping.value;
      Inv(AddMapped(s, events).(lane := s.lane + [Work(Output(Mapped(p, events)), [p])]))
  {
    hide Outputs, Finishes, Carries, LaneCarries, GateOk, Parts, Output;
    var m := Mapped(s.mapping.value, events);
    var ms := s.mapped + [m];
    MappedKeepsDone(s, m);
    assert [] + Output(m) == Output(m) && [] + [m.part] == [m.part];
    if !s.failed {
      LaneCarriesSnoc(s.lane, Work(Output(m), [m.part]), ms, |s.persisted| + RunningCount(s), |s.mapped|, |ms|);
    }
    CarriesNothing(ms);
  }

  lemma FinishMapKeepsInv(s: State, events: seq<Event>)
    requires Inv(s) && s.mapping.Some?
    ensures Inv(FinishMap(s, events))
  {
    hide Inv, Outputs, Finishes;
    if AllChunks(events) {
      QueueChunksKeepsInv(s, events);
    } else {
      FlushKeepsInv(s);
      SingleKeepsInv(Flush(s), events);
    }
  }

  lemma StartWorkKeepsInv(s: State)
    requires Inv(s) && Enabled(s, DoStartWork)
    ensures Inv(StartWork(s))
  {
    hide Outputs, Finishes;
  }

  lemma CarriesAppends(w: Work, ms: seq<Mapped>, done: nat, taken: nat)
    requires Carries(w, ms, done, taken)
    ensures Parts(ms[..taken]) == Parts(ms[..done]) + w.parts
    ensures Outputs(ms[..taken]) == Outputs(ms[..done]) + w.events
  {
    hide Outputs;
    assert ms[..taken] == ms[..done] + ms[done..taken];
    OutputsConcat(ms[..done], ms[done..taken]);
  }

  lemma WorkDoneKeepsInv(s: State)
    requires Inv(s) && s.running.Some?
    ensures Inv(WorkDone(s))
  {
    hide Outputs, Finishes, Carries, LaneCarries, GateOk, Parts;
    var done := |s.persisted|;
    CarriesAppends(s.running.value, s.mapped, done, done + RunningCount(s));
    PartsPersistedOk(s.gate, s.persisted, s.running.value.parts);
  }

  lemma BeforeStepKeepsGate(g: Gate, persisted: seq<Part>, step: int, waiter: nat)
    requires GateOk(g, persisted)
    ensures GateOk(BeforeStep(g, step, waiter), persisted)
  {
    hide Finishes;
  }

  lemma StepKeepsInv(s: State, a: Action)
    requires Inv(s) && Enabled(s, a)
    ensures Inv(Apply(s, a))
  {
    hide Outputs, Finishes, LaneCarries, Carries, Flush, FinishMap, WorkDone, StartWork, StartMap, BeforeStep, GateOk;
    match a
    case DoObserve(p) => ObserveKeepsInv(s, p);
    case DoStartMap => StartMapKeepsInv(s);
    case DoFinishMap(events) => FinishMapKeepsInv(s, events);
    case DoFailMap =>
    case DoTimer => FlushKeepsInv(s);
    case DoFlush => FlushKeepsInv(s);
    case DoStartWork => StartWorkKeepsInv(s);
    case DoWorkDone => WorkDoneKeepsInv(s);
    case DoWorkFailed =>
    case DoBeforeStep(step, waiter) => BeforeStepKeepsGate(s.gate, s.persisted, step, waiter);
  }

  lemma ObserveKeepsInv(s: State, p: Part)
    requires Inv(s)
    ensures Inv(Observe(s, p))
  {
    hide Outputs, Finishes, LaneCarries, Carries, GateOk;
  }

  lemma {:induction false} RunKeepsInv(s: State, acts: seq<Action>)
    requires Inv(s) && ValidRun(s, acts)
    ensures Inv(Run(s, acts))
    decreases |acts|
  {
    hide Inv, Apply, Enabled;
    if acts != [] {
      StepKeepsInv(s, acts[0]);
      RunKeepsInv(Apply(s, acts[0]), acts[1..]);
    }
  }

  // ----- the theorems -----

  /**
   Refinement. Whenever the timer fires, however batches form and whatever fails, the log is what
   unbatched recording of the first parts in observation order would have written, and the parts
   reported as persisted are exactly those. Settling without a failure leaves nothing out.
   */
  lemma BatchingRefinesUnbatched(acts: seq<Action>)
    requires ValidRun(Init(), acts)
    ensures var t := Run(Init(), acts);
      && |t.persisted| <= |t.mapped| && Parts(t.mapped) <= t.observed
      && t.log == Outputs(t.mapped[..|t.persisted|])
      && t.persisted <= t.observed
      && (Settled(t) && !t.failed ==> Parts(t.mapped) == t.observed && t.log == Outputs(t.mapped))
  {
    hide Outputs, Finishes, GateOk, Run, ValidRun;
    InitInv();
    RunKeepsInv(Init(), acts);
    var t := Run(Init(), acts);
    assert t.mapped[..|t.mapped|] == t.mapped;
  }

  lemma InitInv()
    ensures Inv(Init())
  {
  }

  lemma FinishesMonotone(parts: seq<Part>, i: nat, j: nat)
    requires i <= j <= |parts|
    ensures Finishes(parts[..i]) <= Finishes(parts[..j])
  {
    assert parts[..j] == parts[..i] + parts[i..j];
    FinishesConcat(parts[..i], parts[i..j]);
  }

  /**
   The step gate. A released `beforeStep(n)` has every observed part up to and including the n-th
   `finish-step` persisted: a part preceded by fewer than n of them is among the persisted ones.
   A waiter still held waits for a step whose `finish-step` is not persisted.
   */
  lemma GateOpensOnTime(acts: seq<Action>, n: int, waiter: nat)
    requires ValidRun(Init(), acts)
    ensures var t := Run(Init(), acts);
      (n, waiter) in t.gate.released ==>
      && n <= Finishes(t.persisted)
      && forall i :: 0 <= i < |t.observed| && Finishes(t.observed[..i]) < n ==> i < |t.persisted|
    ensures var t := Run(Init(), acts);
      n in t.gate.waiting ==> n > Finishes(t.persisted)
  {
    hide Outputs, Finishes, Run, ValidRun;
    InitInv();
    RunKeepsInv(Init(), acts);
    var t := Run(Init(), acts);
    if (n, waiter) in t.gate.released {
      assert t.persisted == t.observed[..|t.persisted|];
      forall i | 0 <= i < |t.observed| && Finishes(t.observed[..i]) < n ensures i < |t.persisted| {
        if |t.persisted| <= i { FinishesMonotone(t.observed, |t.persisted|, i); }
      }
    }
  }

  // ----- the lanes come to rest -----

  /** Work the two lanes still owe. */
  function Owed(s: State): nat {
    5 * |s.queue| + (if s.mapping.Some? then 4 else 0) + (if s.pendingEvents != [] then 3 else 0) +
    2 * |s.lane| + (if s.running.Some? then 1 else 0)
  }

  /** A step of a lane, successful or not, or the flush of a batch that holds something. */
  predicate LaneStep(s: State, a: Action) {
    a.DoStartMap? || a.DoFinishMap? || a.DoFailMap? || a.DoStartWork? || a.DoWorkDone? || a.DoWorkFailed? ||
    (a.DoFlush? && s.pendingEvents != [])
  }

  predicate LaneRun(s: State, acts: seq<Action>)
    requires ValidRun(s, acts)
    decreases |acts|
  {
    acts == [] || (LaneStep(s, acts[0]) && LaneRun(Apply(s, acts[0]), acts[1..]))
  }

  lemma FlushOwes(s: State)
    ensures Owed(Flush(s)) <= Owed(s) && (s.pendingEvents != [] ==> Owed(Flush(s)) < Owed(s))
    ensures Flush(s).pendingEvents == []
  {
  }

  lemma FinishMapOwesLess(s: State, events: seq<Event>)
    requires s.mapping.Some?
    ensures Owed(FinishMap(s, events)) < Owed(s)
  {
    hide Output, Flush;
    var p := s.mapping.value;
    var t := s.(mapping := None, mapped := s.mapped + [Mapped(p, events)]);
    FlushOwes(t);
    FlushOwes(t.(pendingEvents := t.pendingEvents + events, pendingParts := t.pendingParts + [p]));
  }

  lemma LaneStepOwesLess(s: State, a: Action)
    requires Enabled(s, a) && LaneStep(s, a)
    ensures Owed(Apply(s, a)) < Owed(s)
  {
    hide FinishMap, Flush, PartsPersisted, Output;
    FlushOwes(s);
    if a.DoFinishMap? { FinishMapOwesLess(s, a.events); }
  }

  /** Some lane step is possible as long as the recording is not settled. */
  lemma UnsettledMoves(s: State)
    ensures Settled(s) <==> forall a :: LaneStep(s, a) ==> !Enabled(s, a)
  {
    if !Settled(s) {
      var a := if s.mapping.Some? then DoFinishMap([]) else if s.queue != [] then DoStartMap
               else if s.running.Some? then DoWorkDone else if s.lane != [] then DoStartWork else DoFlush;
      assert LaneStep(s, a) && Enabled(s, a);
    }
  }

  /** Without new parts the lanes take boundedly many steps, and when none is left everything is settled. */
  lemma {:induction false} LanesSettle(s: State, acts: seq<Action>)
    requires ValidRun(s, acts) && LaneRun(s, acts)
    ensures |acts| + Owed(Run(s, acts)) <= Owed(s)
    ensures (forall a :: LaneStep(Run(s, acts), a) ==> !Enabled(Run(s, acts), a)) ==> Settled(Run(s, acts))
    decreases |acts|
  {
    hide Apply, Enabled, LaneStep, Settled, Owed;
    if acts == [] {
      UnsettledMoves(s);
    } else {
      LaneStepOwesLess(s, acts[0]);
      LanesSettle(Apply(s, acts[0]), acts[1..]);
    }
  }
}
