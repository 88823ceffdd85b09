/** The recorder beside a stream. */
module RecordingModel {
  // A mapping lane, a chunk batch with a timer, a persistence lane, and the gate that holds the
  // next step back.

  import opened Wrappers

  datatype Part = Part(kind: string, body: string)

  datatype Event = Chunk(body: string) | Canonical(body: string) | Diagnostic(kind: string, body: string)

  /** A part with the events `mapEvents` produced for it. */
  datatype Mapped = Mapped(part: Part, events: seq<Event>)

  /** Work of the persistence lane: one append, then `onPartPersisted` for each part. */
  datatype Work = Work(events: seq<Event>, parts: seq<Part>)

  /** `waiting` are the unresolved `beforeStep` promises by step; `released` the resolved ones. */
  datatype Gate = Gate(persistedSteps: nat, waiting: map<int, set<nat>>, released: set<(int, nat)>)

  datatype State = State(
    observed: seq<Part>, mapped: seq<Mapped>, queue: seq<Part>, mapping: Option<Part>,
    pendingEvents: seq<Event>, pendingParts: seq<Part>, timer: bool,
    lane: seq<Work>, running: Option<Work>, failed: bool,
    log: seq<Event>, persisted: seq<Part>, gate: Gate)

  const BATCH := 32

  function Init(): State {
    State([], [], [], None, [], [], false, [], None, false, [], [], Gate(0, map[], {}))
  }

  const DIAGNOSTIC_KINDS: set<string> := {
    "text-delta", "reasoning-delta", "tool-call", "tool-result", "tool-error", "finish", "abort", "error"}

  /** `sessionDiagnosticForStreamPart`, up to the shape of its payload. */
  function DiagnosticOf(p: Part): Option<Event> {
    if p.kind in DIAGNOSTIC_KINDS then Some(Diagnostic(p.kind, p.body)) else None
  }

  /** What recording one part without batching appends to the log. */
  function Output(m: Mapped): seq<Event> {
    if m.events != [] then m.events
    else if DiagnosticOf(m.part).Some? then [DiagnosticOf(m.part).value]
    else []
  }

  predicate AllChunks(events: seq<Event>) {
    events != [] && forall i :: 0 <= i < |events| ==> events[i].Chunk?
  }

  // ----- the gate -----

  function BeforeStep(g: Gate, step: int, waiter: nat): Gate {
    if step <= g.persistedSteps then g.(released := g.released + {(step, waiter)})
    else
      var pending := if step in g.waiting then g.waiting[step] else {};
      g.(waiting := g.waiting[step := pending + {waiter}])
  }

  function PartPersisted(g: Gate, p: Part): Gate {
    if p.kind != "finish-step" then g
    else
      var n := g.persistedSteps + 1;
      Gate(n, map k | k in g.waiting && k > n :: g.waiting[k],
           g.released + set k, w | k in g.waiting && k <= n && w in g.waiting[k] :: (k, w))
  }

  function PartsPersisted(g: Gate, parts: seq<Part>): Gate {
    if parts == [] then g else PartPersisted(PartsPersisted(g, parts[..|parts| - 1]), parts[|parts| - 1])
  }

  // ----- the lanes -----

  function Flush(s: State): State {
    if s.pendingEvents == [] then s.(timer := false)
    else s.(timer := false, pendingEvents := [], pendingParts := [],
            lane := s.lane + [Work(s.pendingEvents, s.pendingParts)])
  }

  function QueueChunks(s: State, p: Part, events: seq<Event>): State {
    var t := s.(pendingEvents := s.pendingEvents + events, pendingParts := s.pendingParts + [p]);
    if |t.pendingEvents| >= BATCH then Flush(t) else t.(timer := true)
  }

  function Observe(s: State, p: Part): State {
    s.(observed := s.observed + [p], queue := s.queue + [p])
  }

  function StartMap(s: State): State
    requires s.queue != []
  {
    if s.failed then s.(queue := s.queue[1..])
    else s.(queue := s.queue[1..], mapping := Some(s.queue[0]))
  }

  function FinishMap(s: State, events: seq<Event>): State
    requires s.mapping.Some?
  {
    var p := s.mapping.value;
    var t := s.(mapping := None, mapped := s.mapped + [Mapped(p, events)]);
    if AllChunks(events) then QueueChunks(t, p, events)
    else Flush(t).(lane := Flush(t).lane + [Work(Output(Mapped(p, events)), [p])])
  }

  function FailMap(s: State): State {
    s.(mapping := None, failed := true)
  }

  function StartWork(s: State): State
    requires s.lane != []
  {
    if s.failed then s.(lane := s.lane[1..]) else s.(lane := s.lane[1..], running := Some(s.lane[0]))
  }

  function WorkDone(s: State): State
    requires s.running.Some?
  {
    var w := s.running.value;
    s.(running := None, log := s.log + w.events, persisted := s.persisted + w.parts,
       gate := PartsPersisted(s.gate, w.parts))
  }

  function WorkFailed(s: State): State {
    s.(running := None, failed := true)
  }

  datatype Action =
    | DoObserve(part: Part)
    | DoStartMap
    | DoFinishMap(events: seq<Event>)
    | DoFailMap
    | DoTimer
    | DoFlush
    | DoStartWork
    | DoWorkDone
    | DoWorkFailed
    | DoBeforeStep(step: int, waiter: nat)

  predicate Enabled(s: State, a: Action) {
    match a
    case DoObserve(_) => true
    case DoStartMap => s.mapping.None? && s.queue != []
    case DoFinishMap(_) => s.mapping.Some?
    case DoFailMap => s.mapping.Some?
    case DoTimer => s.timer
    case DoFlush => true
    case DoStartWork => s.running.None? && s.lane != []
    case DoWorkDone => s.running.Some?
    case DoWorkFailed => s.running.Some?
    case DoBeforeStep(_, _) => true
  }

  function Apply(s: State, a: Action): State
    requires Enabled(s, a)
  {
    match a
    case DoObserve(p) => Observe(s, p)
    case DoStartMap => StartMap(s)
    case DoFinishMap(events) => FinishMap(s, events)
    case DoFailMap => FailMap(s)
    case DoTimer => Flush(s)
    case DoFlush => Flush(s)
    case DoStartWork => StartWork(s)
    case DoWorkDone => WorkDone(s)
    case DoWorkFailed => WorkFailed(s)
    case DoBeforeStep(step, waiter) => s.(gate := BeforeStep(s.gate, step, waiter))
  }

  predicate ValidRun(s: State, acts: seq<Action>)
    decreases |acts|
  {
    acts == [] || (Enabled(s, acts[0]) && ValidRun(Apply(s, acts[0]), acts[1..]))
  }

  function Run(s: State, acts: seq<Action>): State
    requires ValidRun(s, acts)
    decreases |acts|
  {
    if acts == [] then s else Run(Apply(s, acts[0]), acts[1..])
  }

  /** Both lanes are quiet and no chunk is held back: what `flush` and `drain` wait for. */
  predicate Settled(s: State) {
    s.queue == [] && s.mapping.None? && s.pendingEvents == [] && s.lane == [] && s.running.None?
  }
}
