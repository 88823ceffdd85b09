/** The loops of the replay compiler. */
module Replay {
  // The loops of the replay compiler, and deriving the outputs of a request from the log.

  import opened Wrappers
  import opened ReplayModel
  import Safety = ReplaySafety

  /** `callsById` as `streamPlan` builds it: a later call of the same id replaces an earlier one. */
  method CallsById(outputs: seq<Output>) returns (calls: map<string, string>)
    ensures forall id :: InputOf(outputs, id) == if id in calls then Some(calls[id]) else None
  {
    calls := map[];
    var i := 0;
    while i < |outputs|
      invariant i <= |outputs|
      invariant forall id :: InputOf(outputs[..i], id) == if id in calls then Some(calls[id]) else None
    {
      assert outputs[..i + 1][..i] == outputs[..i];
      if outputs[i].ToolCall? { calls := calls[outputs[i].callId := outputs[i].input]; }
      i := i + 1;
    }
    assert outputs[..i] == outputs;
  }

  /** `closeOpened`. */
  method CloseOpened(parts: seq<Part>, blocks: seq<Block>) returns (r: seq<Part>)
    ensures r == parts + Ends(blocks)
  {
    r := parts;
    var i := 0;
    while i < |blocks|
      invariant i <= |blocks|
      invariant r + Ends(blocks[i..]) == parts + Ends(blocks)
    {
      assert blocks[i..][1..] == blocks[i + 1..];
      r := r + [End(blocks[i].family, blocks[i].id)];
      i := i + 1;
    }
    assert blocks[i..] == [];
  }

  lemma PrependTwice(a: seq<Part>, b: seq<Part>, rest: Result<seq<Part>, ReplayError>)
    ensures Prepend(a, Prepend(b, rest)) == Prepend(a + b, rest)
  {
    if rest.Ok? { assert a + (b + rest.value) == a + b + rest.value; }
  }

  /** `streamPlan` on outputs whose placeholders are already filled in. */
  method StreamPlan(outputs: seq<Output>, request: string, reason: string) returns (r: Result<seq<Part>, ReplayError>)
    ensures r == Plan(outputs, request, reason)
  {
    hide Ends, InputOf, IdOf, TextOf, FamilyOf, Lookup, PlanFrom;
    var parts: seq<Part>, blocks: seq<Block>, i := [], [], 0;
    var calls := CallsById(outputs);
    assert outputs[0..] == outputs;
    PrependNothing(Plan(outputs, request, reason));
    while i < |outputs|
      invariant i <= |outputs|
      invariant Plan(outputs, request, reason) == Prepend(parts, PlanFrom(outputs[i..], blocks, outputs, request, reason))
    {
      var output := outputs[i];
      ghost var before, was := parts, blocks;
      PlanFromUnfold(outputs, i, blocks, request, reason);
      if !output.Chunk? {
        parts := CloseOpened(parts, blocks);
        blocks := [];
        if output.ToolCall? {
          parts := parts + [Call(output.callId, output.name, output.input)];
        } else {
          var input := if output.callId in calls then Some(calls[output.callId]) else None;
          parts := parts + [Outcome(output.callId, output.name, output.expected, input)];
        }
        PrependTwice(before, Ends(was) + [ToolPart(output, outputs)], PlanFrom(outputs[i + 1..], [], outputs, request, reason));
        assert parts == before + (Ends(was) + [ToolPart(output, outputs)]);
      } else {
        if !Supported(output) { return Err(UnsupportedCanonicalChunk); }
        var id, family := IdOf(output, request), FamilyOf(output);
        var known := Lookup(blocks, id);
        if known.None? {
          blocks := blocks + [Block(id, family)];
          parts := parts + [Start(family, id)];
        } else if known.value != family {
          return Err(InvalidFixture);
        }
        parts := parts + [Delta(family, id, TextOf(output))];
        ghost var delta := Delta(family, id, TextOf(output));
        ghost var added := if known.None? then [Start(family, id), delta] else [delta];
        PrependTwice(before, added, PlanFrom(outputs[i + 1..], blocks, outputs, request, reason));
        assert parts == before + added;
      }
      i := i + 1;
    }
    assert outputs[i..] == [];
    PlanFromEnd(blocks, outputs, request, reason);
    ghost var before := parts;
    parts := CloseOpened(parts, blocks);
    parts := parts + [FinishStep(reason)];
    parts := parts + [Finish(reason)];
    assert parts == before + (Ends(blocks) + [FinishStep(reason), Finish(reason)]);
    return Ok(parts);
  }

  lemma PrependNothing(r: Result<seq<Part>, ReplayError>)
    ensures Prepend([], r) == r
  {
    if r.Ok? { assert [] + r.value == r.value; }
  }

  lemma PlanFromEnd(blocks: seq<Block>, all: seq<Output>, request: string, reason: string)
    ensures PlanFrom([], blocks, all, request, reason) == Ok(Ends(blocks) + [FinishStep(reason), Finish(reason)])
  {
  }

  lemma PlanFromUnfold(outputs: seq<Output>, i: nat, blocks: seq<Block>, request: string, reason: string)
    requires i < |outputs|
    ensures var o := outputs[i];
      var rest := outputs[i + 1..];
      PlanFrom(outputs[i..], blocks, outputs, request, reason) ==
        if !o.Chunk? then Prepend(Ends(blocks) + [ToolPart(o, outputs)], PlanFrom(rest, [], outputs, request, reason))
        else if !Supported(o) then Err(UnsupportedCanonicalChunk)
        else
          var b, delta := Block(IdOf(o, request), FamilyOf(o)), Delta(FamilyOf(o), IdOf(o, request), TextOf(o));
          if Lookup(blocks, b.id).None? then
            Prepend([Start(b.family, b.id), delta], PlanFrom(rest, blocks + [b], outputs, request, reason))
          else if Lookup(blocks, b.id).value != b.family then Err(InvalidFixture)
          else Prepend([delta], PlanFrom(rest, blocks, outputs, request, reason))
  {
    hide Ends, InputOf, IdOf, TextOf, FamilyOf, Lookup;
    assert outputs[i..][0] == outputs[i] && outputs[i..][1..] == outputs[i + 1..];
  }

  // ----- the outputs of a request -----

  /** The events `deriveRequests` looks at; a log holds them in the order of their numbers. */
  datatype Event =
    | Header(request: string)
    | ChunkLogged(request: string, chunk: Output)
    | CallLogged(request: string, callId: string, name: string, input: string)
    | ResultLogged(callId: string, expected: string)
    | Message(request: string, reason: string)
    | Unrelated

  datatype DeriveError = MissingTerminalFinish

  /** The index of the first `assistant/message` of the request. */
  function FirstMessage(events: seq<Event>, request: string): (r: nat)
    ensures r <= |events|
    ensures r < |events| ==> events[r].Message? && events[r].request == request
    ensures forall i :: 0 <= i < r ==> !(events[i].Message? && events[i].request == request)
  {
    if events == [] || (events[0].Message? && events[0].request == request) then 0
    else 1 + FirstMessage(events[1..], request)
  }

  /** `callsById`: the last call of the request with that id, wherever it stands in the log. */
  function CallOf(events: seq<Event>, request: string, callId: string): Option<Output> {
    if events == [] then None
    else
      var e := events[|events| - 1];
      if e.CallLogged? && e.request == request && e.callId == callId then Some(ToolCall(e.callId, e.name, e.input))
      else CallOf(events[..|events| - 1], request, callId)
  }

  /** The outputs one event contributes. */
  function OutputOf(events: seq<Event>, e: Event, request: string): seq<Output> {
    match e
    case ChunkLogged(r, chunk) => if r == request then [chunk] else []
    case CallLogged(r, id, _, _) =>
      if r == request && CallOf(events, request, id).Some? then [CallOf(events, request, id).value] else []
    case ResultLogged(id, expected) =>
      var call := CallOf(events, request, id);
      if call.Some? && call.value.ToolCall? then [ToolResult(id, call.value.name, expected)] else []
    case _ => []
  }

  function OutputsOf(events: seq<Event>, stretch: seq<Event>, request: string): seq<Output> {
    if stretch == [] then []
    else OutputsOf(events, stretch[..|stretch| - 1], request) + OutputOf(events, stretch[|stretch| - 1], request)
  }

  /** The outputs of the request whose header stands at `header`, and its finish reason. */
  function Derive(events: seq<Event>, header: nat): Result<(seq<Output>, string), DeriveError>
    requires header < |events| && events[header].Header?
  {
    var request := events[header].request;
    var terminal := FirstMessage(events, request);
    if terminal == |events| then Err(MissingTerminalFinish)
    else
      var stretch := if header < terminal then events[header + 1..terminal] else [];
      Ok((OutputsOf(events, stretch, request), events[terminal].reason))
  }

  /** `deriveRequests` for one header. */
  method DeriveRequest(events: seq<Event>, header: nat) returns (r: Result<(seq<Output>, string), DeriveError>)
    requires header < |events| && events[header].Header?
    ensures r == Derive(events, header)
  {
    hide CallOf, OutputOf;
    var request := events[header].request;
    var terminal := FirstMessage(events, request);
    if terminal == |events| { return Err(MissingTerminalFinish); }
    var outputs, i := [], header + 1;
    while i < terminal
      invariant header < i
      invariant header < terminal ==> i <= terminal && outputs == OutputsOf(events, events[header + 1..i], request)
      invariant terminal <= header ==> outputs == []
    {
      assert events[header + 1..i + 1] == events[header + 1..i] + [events[i]];
      outputs := outputs + OutputOf(events, events[i], request);
      i := i + 1;
    }
    return Ok((outputs, events[terminal].reason));
  }

  // ----- deriving undoes logging -----

  /** What the recorder and the executor append for one output. */
  function Logged(o: Output, request: string): Event {
    match o
    case Chunk(_, _, _) => ChunkLogged(request, o)
    case ToolCall(id, name, input) => CallLogged(request, id, name, input)
    case ToolResult(id, _, expected) => ResultLogged(id, expected)
  }

  function LoggedAll(outputs: seq<Output>, request: string): (r: seq<Event>)
    ensures |r| == |outputs|
  {
    if outputs == [] then []
    else LoggedAll(outputs[..|outputs| - 1], request) + [Logged(outputs[|outputs| - 1], request)]
  }

  predicate HasCall(outputs: seq<Output>, callId: string) {
    exists o :: o in outputs && o.ToolCall? && o.callId == callId
  }

  /** The event belongs to the request: its own chunk or call, or the result of one of its calls. */
  predicate Owned(e: Event, outputs: seq<Output>, request: string) {
    || (e.ChunkLogged? && e.request == request)
    || (e.CallLogged? && e.request == request)
    || (e.ResultLogged? && HasCall(outputs, e.callId))
  }

  function OwnedOf(stretch: seq<Event>, outputs: seq<Output>, request: string): seq<Event> {
    if stretch == [] then []
    else
      var e := stretch[|stretch| - 1];
      OwnedOf(stretch[..|stretch| - 1], outputs, request) + if Owned(e, outputs, request) then [e] else []
  }

  /** Call ids name one call, and every result names a call and carries its name. */
  ghost predicate Consistent(outputs: seq<Output>) {
    && (forall i, j :: 0 <= i < j < |outputs| && outputs[i].ToolCall? && outputs[j].ToolCall? ==>
          outputs[i].callId != outputs[j].callId)
    && (forall o :: o in outputs && o.ToolResult? ==>
          exists c :: c in outputs && c.ToolCall? && c.callId == o.callId && c.name == o.name)
  }

  /** Every call of the request in the log is one of the outputs. */
  ghost predicate OnlyCalls(events: seq<Event>, outputs: seq<Output>, request: string) {
    && (forall e :: e in events && e.CallLogged? && e.request == request ==> ToolCall(e.callId, e.name, e.input) in outputs)
    && (forall o :: o in outputs && o.ToolCall? ==> Logged(o, request) in events)
  }

  lemma {:induction false} CallFound(events: seq<Event>, request: string, callId: string)
    ensures CallOf(events, request, callId).Some? <==>
      exists e :: e in events && e.CallLogged? && e.request == request && e.callId == callId
    ensures CallOf(events, request, callId).Some? ==>
      var c := CallOf(events, request, callId).value;
      c.ToolCall? && c.callId == callId && CallLogged(request, callId, c.name, c.input) in events
  {
    if events != [] {
      var n := |events| - 1;
      assert events == events[..n] + [events[n]];
      CallFound(events[..n], request, callId);
    }
  }

  /** The call the derivation finds is the one that was logged. */
  lemma CallIsLogged(events: seq<Event>, outputs: seq<Output>, request: string, c: Output)
    requires Consistent(outputs) && OnlyCalls(events, outputs, request) && c in outputs && c.ToolCall?
    ensures CallOf(events, request, c.callId) == Some(c)
  {
    hide CallOf;
    CallFound(events, request, c.callId);
    assert Logged(c, request) in events;
    var d := CallOf(events, request, c.callId).value;
    assert d in outputs;
    var i :| 0 <= i < |outputs| && outputs[i] == c;
    var j :| 0 <= j < |outputs| && outputs[j] == d;
  }

  /** An owned event derives to the output it was written for, any other event to nothing. */
  lemma EventDerives(events: seq<Event>, outputs: seq<Output>, request: string, e: Event)
    requires Consistent(outputs) && OnlyCalls(events, outputs, request) && e in events
    ensures !Owned(e, outputs, request) ==> OutputOf(events, e, request) == []
    ensures forall o :: o in outputs && e == Logged(o, request) ==> OutputOf(events, e, request) == [o]
  {
    hide CallOf;
    if e.CallLogged? || e.ResultLogged? { CallFound(events, request, e.callId); }
    forall o | o in outputs && e == Logged(o, request) ensures OutputOf(events, e, request) == [o] {
      if o.ToolCall? {
        CallIsLogged(events, outputs, request, o);
      } else if o.ToolResult? {
        var c :| c in outputs && c.ToolCall? && c.callId == o.callId && c.name == o.name;
        CallIsLogged(events, outputs, request, c);
      }
    }
  }

  lemma {:induction false} StretchDerives(events: seq<Event>, stretch: seq<Event>, outputs: seq<Output>, done: seq<Output>, request: string)
    requires Consistent(outputs) && OnlyCalls(events, outputs, request)
    requires forall e :: e in stretch ==> e in events
    requires forall o :: o in done ==> o in outputs
    requires OwnedOf(stretch, outputs, request) == LoggedAll(done, request)
    ensures OutputsOf(events, stretch, request) == done
    decreases |stretch|
  {
    hide CallOf, OutputOf, Consistent, OnlyCalls, Owned, Logged;
    if stretch == [] {
      assert |LoggedAll(done, request)| == |done|;
    } else {
      var n := |stretch| - 1;
      var e := stretch[n];
      EventDerives(events, outputs, request, e);
      if Owned(e, outputs, request) {
        assert done != [];
        var m := |done| - 1;
        assert OwnedOf(stretch, outputs, request)[..|OwnedOf(stretch, outputs, request)| - 1] == OwnedOf(stretch[..n], outputs, request);
        assert LoggedAll(done, request)[..|LoggedAll(done, request)| - 1] == LoggedAll(done[..m], request);
        StretchDerives(events, stretch[..n], outputs, done[..m], request);
        assert done[m] in outputs && e == Logged(done[m], request);
        assert done == done[..m] + [done[m]];
      } else {
        StretchDerives(events, stretch[..n], outputs, done, request);
        assert OutputsOf(events, stretch, request) == OutputsOf(events, stretch[..n], request);
      }
    }
  }

  /**
   However the events of other requests are interleaved with those a request wrote, deriving the
   request gives its outputs back, in order, and the plan of them replays what was recorded.
   */
  lemma DeriveUndoesLogging(events: seq<Event>, header: nat, terminal: nat, outputs: seq<Output>)
    requires header < terminal < |events| && events[header].Header?
    requires var request := events[header].request;
      && events[terminal].Message? && events[terminal].request == request
      && (forall i :: 0 <= i < terminal ==> !(events[i].Message? && events[i].request == request))
      && Consistent(outputs) && OnlyCalls(events, outputs, request)
      && OwnedOf(events[header + 1..terminal], outputs, request) == LoggedAll(outputs, request)
    ensures Derive(events, header) == Ok((outputs, events[terminal].reason))
    ensures var request := events[header].request;
      Plannable(outputs, request) && (forall o :: o in outputs ==> IsCanonical(o)) ==>
        var plan := Plan(outputs, request, events[terminal].reason);
        plan.Ok? && Recorded(plan.value) == outputs
  {
    hide OutputsOf, Consistent, OnlyCalls, OwnedOf, LoggedAll, Plan, Recorded;
    var request := events[header].request;
    assert FirstMessage(events, request) == terminal;
    StretchDerives(events, events[header + 1..terminal], outputs, outputs, request);
    Safety.PlanUndoesRecorder(outputs, request, events[terminal].reason);
  }
}
