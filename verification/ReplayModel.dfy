/** The replay compiler, both ways. */
module ReplayModel {
  // The deterministic replay compiler: from the recorded outputs of a request to a provider stream.

  import opened Wrappers

  datatype Family = Text | Reasoning

  /** Canonical outputs; `None` stands for a field that is missing or not a string. */
  datatype Output =
    | Chunk(kind: Option<string>, id: Option<string>, delta: Option<string>)
    | ToolCall(callId: string, name: string, input: string)
    | ToolResult(callId: string, name: string, expected: string)

  datatype Part =
    | Start(family: Family, id: string)
    | Delta(family: Family, id: string, text: string)
    | End(family: Family, id: string)
    | Call(callId: string, name: string, input: string)
    | Outcome(callId: string, name: string, expected: string, given: Option<string>)
    | FinishStep(reason: string)
    | Finish(reason: string)

  datatype ReplayError = UnsupportedCanonicalChunk | InvalidFixture

  datatype Block = Block(id: string, family: Family)

  function KindOf(f: Family): string {
    if f == Text then "text-delta" else "reasoning-delta"
  }

  predicate Supported(o: Output) {
    o.Chunk? && (o.kind == Some("text-delta") || o.kind == Some("reasoning-delta"))
  }

  function FamilyOf(o: Output): Family
    requires Supported(o)
  {
    if o.kind == Some("text-delta") then Text else Reasoning
  }

  /** The id of a chunk, made up from kind and request when the record has none. */
  function IdOf(o: Output, request: string): string
    requires Supported(o)
  {
    if o.id.Some? && o.id.value != "" then o.id.value else o.kind.value + ":" + request
  }

  function TextOf(o: Output): string
    requires o.Chunk?
  {
    if o.delta.Some? then o.delta.value else ""
  }

  /** `blocks.get(id)` of the insertion-ordered map. */
  function Lookup(blocks: seq<Block>, id: string): (r: Option<Family>)
    ensures r.Some? <==> exists b :: b in blocks && b.id == id
    ensures r.Some? ==> Block(id, r.value) in blocks
  {
    if blocks == [] then None
    else if blocks[0].id == id then Some(blocks[0].family)
    else Lookup(blocks[1..], id)
  }

  function Ends(blocks: seq<Block>): seq<Part> {
    if blocks == [] then [] else [End(blocks[0].family, blocks[0].id)] + Ends(blocks[1..])
  }

  /** `callsById.get(callId)?.input`: the last call of that id wins, wherever it stands. */
  function InputOf(outputs: seq<Output>, callId: string): Option<string> {
    if outputs == [] then None
    else
      var o := outputs[|outputs| - 1];
      if o.ToolCall? && o.callId == callId then Some(o.input) else InputOf(outputs[..|outputs| - 1], callId)
  }

  /** A tool output as the part that replays it. */
  function ToolPart(o: Output, all: seq<Output>): Part
    requires !o.Chunk?
  {
    if o.ToolCall? then Call(o.callId, o.name, o.input)
    else Outcome(o.callId, o.name, o.expected, InputOf(all, o.callId))
  }

  /** The plan of the remaining outputs when `blocks` are the open blocks. */
  function PlanFrom(outputs: seq<Output>, blocks: seq<Block>, all: seq<Output>, request: string, reason: string)
    : Result<seq<Part>, ReplayError>
    decreases |outputs|
  {
    if outputs == [] then Ok(Ends(blocks) + [FinishStep(reason), Finish(reason)])
    else
      var o := outputs[0];
      if !o.Chunk? then
        Prepend(Ends(blocks) + [ToolPart(o, all)], PlanFrom(outputs[1..], [], all, request, reason))
      else if !Supported(o) then Err(UnsupportedCanonicalChunk)
      else
        var id, family := IdOf(o, request), FamilyOf(o);
        var delta := Delta(family, id, TextOf(o));
        if Lookup(blocks, id).None? then
          Prepend([Start(family, id), delta],
                  PlanFrom(outputs[1..], blocks + [Block(id, family)], all, request, reason))
        else if Lookup(blocks, id).value != family then Err(InvalidFixture)
        else Prepend([delta], PlanFrom(outputs[1..], blocks, all, request, reason))
  }

  function Prepend(parts: seq<Part>, rest: Result<seq<Part>, ReplayError>): Result<seq<Part>, ReplayError> {
    if rest.Ok? then Ok(parts + rest.value) else rest
  }

  function Plan(outputs: seq<Output>, request: string, reason: string): Result<seq<Part>, ReplayError> {
    PlanFrom(outputs, [], outputs, request, reason)
  }

  // ----- the recorder -----

  /** What the stream recorder and the tool executor write for one part. */
  function Record(p: Part): seq<Output> {
    match p
    case Delta(f, id, text) => [Chunk(Some(KindOf(f)), Some(id), Some(text))]
    case Call(callId, name, input) => [ToolCall(callId, name, input)]
    case Outcome(callId, name, expected, _) => [ToolResult(callId, name, expected)]
    case _ => []
  }

  function Recorded(parts: seq<Part>): seq<Output> {
    if parts == [] then [] else Record(parts[0]) + Recorded(parts[1..])
  }

  // ----- an independent view of a provider stream -----

  /**
   A stream reader that knows nothing of the compiler: blocks open under a fresh id, deltas stay
   in an open block of their family, once a block ends only more ends follow until none is open,
   tool parts and the finish come with no block open, and the finish comes once, at the end.
   */
  predicate Bracketed(parts: seq<Part>, open: set<Block>, closing: bool)
    decreases |parts|
  {
    parts != [] &&
    match parts[0]
    case Start(f, id) =>
      !closing && (forall b :: b in open ==> b.id != id) && Bracketed(parts[1..], open + {Block(id, f)}, false)
    case Delta(f, id, _) => !closing && Block(id, f) in open && Bracketed(parts[1..], open, false)
    case End(f, id) => Block(id, f) in open && Bracketed(parts[1..], open - {Block(id, f)}, true)
    case FinishStep(r) => open == {} && parts[1..] == [Finish(r)]
    case Finish(_) => false
    case _ => open == {} && Bracketed(parts[1..], open, false)
  }

  /** The outputs from `i` up to, not including, `j` are chunks only. */
  predicate Stretch(outputs: seq<Output>, i: nat, j: nat)
    requires i <= j <= |outputs|
  {
    forall k :: i <= k < j ==> outputs[k].Chunk?
  }

  /** Among the first `n` outputs no chunk is unsupported and no id changes its family within a stretch. */
  predicate PlannableTo(outputs: seq<Output>, n: nat, request: string)
    requires n <= |outputs|
  {
    && (forall i :: 0 <= i < n && outputs[i].Chunk? ==> Supported(outputs[i]))
    && (forall i, j :: 0 <= i < j < n && Stretch(outputs, i, j + 1) ==> Compatible(outputs[i], outputs[j], request))
  }

  predicate Plannable(outputs: seq<Output>, request: string) {
    PlannableTo(outputs, |outputs|, request)
  }

  /** Two chunks of one id are of one family. */
  predicate Compatible(a: Output, b: Output, request: string) {
    Supported(a) && Supported(b) && IdOf(a, request) == IdOf(b, request) ==> FamilyOf(a) == FamilyOf(b)
  }

  /** A chunk with its id and delta filled in. */
  function Canonical(o: Output, request: string): Output {
    if Supported(o) then Chunk(o.kind, Some(IdOf(o, request)), Some(TextOf(o))) else o
  }

  predicate IsCanonical(o: Output) {
    o.Chunk? ==> Supported(o) && o.id.Some? && o.id.value != "" && o.delta.Some?
  }
}
