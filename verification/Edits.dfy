/**
 The edit tool over a file: counting loop, ordered edits, and nothing written on failure.
 */
module Edits {
  import opened Wrappers
  import opened JsonModel
  import opened EditModel
  import Safety = EditSafety

  /** What reading the file gives. */
  datatype ReadResult = Text(content: string) | Binary | TooLarge | Missing | ReadFails

  datatype ToolError = NotRead | NotText | NoFile | Environment | Refused(error: EditError)

  datatype Success = Success(replacements: nat, bytesWritten: nat)

  datatype Proposal = Proposal(original: string, proposed: string)

  /** The counting loop: search on from the end of the last match. */
  method CountOccurrences(content: string, pattern: string) returns (count: nat)
    requires pattern != ""
    ensures count == Count(content, pattern)
  {
    hide IndexOf;
    count := 0;
    var at: nat := 0;
    assert content[0..] == content;
    var found := IndexOf(content, pattern, at);
    while found.Some?
      invariant at <= |content| && found == IndexOf(content, pattern, at)
      invariant count + Count(content[at..], pattern) == Count(content, pattern)
      decreases |content| - at
    {
      CountStep(content, pattern, at);
      count := count + 1;
      at := found.value + |pattern|;
      found := IndexOf(content, pattern, at);
    }
    CountEnd(content, pattern, at);
  }

  lemma CountUnfold(content: string, pattern: string)
    requires pattern != "" && IndexOf(content, pattern, 0).Some?
    ensures Count(content, pattern) == 1 + Count(content[IndexOf(content, pattern, 0).value + |pattern|..], pattern)
  {
    hide IndexOf;
  }

  lemma CountStep(content: string, pattern: string, at: nat)
    requires pattern != "" && at <= |content| && IndexOf(content, pattern, at).Some?
    ensures var i := IndexOf(content, pattern, at).value;
      Count(content[at..], pattern) == 1 + Count(content[i + |pattern|..], pattern)
  {
    hide IndexOf, Count;
    Safety.IndexFrom(content, pattern, at);
    CountUnfold(content[at..], pattern);
    var i := IndexOf(content, pattern, at).value;
    assert content[at..][i - at + |pattern|..] == content[i + |pattern|..];
  }

  lemma CountEnd(content: string, pattern: string, at: nat)
    requires pattern != "" && at <= |content| && IndexOf(content, pattern, at).None?
    ensures Count(content[at..], pattern) == 0
  {
    hide IndexOf;
    Safety.IndexFrom(content, pattern, at);
  }

  /** The edit loop on the text alone. */
  method ApplyAll(original: string, edits: seq<Edit>) returns (r: Result<Edited, EditError>)
    ensures r == ApplyEdits(original, edits, |edits|)
  {
    hide ReplaceOnce, SplitBy, Join, Count;
    var content: string, replacements: nat, i: nat := original, 0, 0;
    while i < |edits|
      invariant i <= |edits|
      invariant ApplyEdits(original, edits, i) == Ok(Edited(content, replacements))
    {
      var e := edits[i];
      i := i + 1;
      if ApplyEdits(original, edits, i).Err? { Safety.FailureStays(original, edits, i, |edits|); }
      if e.oldText == e.newText { return Err(Identical); }
      if e.oldText == "" { return Err(EmptyPattern); }
      var count := CountOccurrences(content, e.oldText);
      if count == 0 { return Err(NotFound); }
      if !e.all && count > 1 { return Err(NotUnique); }
      content := if e.all then Join(SplitBy(content, e.oldText), e.newText) else ReplaceOnce(content, e.oldText, e.newText);
      replacements := replacements + if e.all then count else 1;
    }
    return Ok(Edited(content, replacements));
  }

  class EditTool {
    var file: ReadResult
    var readBefore: bool
    var cachedSize: nat
    var proposals: seq<Proposal>

    constructor (file: ReadResult, readBefore: bool)
      ensures this.file == file && this.readBefore == readBefore && proposals == []
    {
      this.file, this.readBefore, cachedSize, proposals := file, readBefore, 0, [];
    }

    /**
     `edit` and `multi_edit` on one writable path. A failure of any kind leaves file, read cache
     and proposals as they were; in plan mode a success is proposed instead of written.
     */
    method Edit(edits: seq<Edit>, planMode: bool, writeOk: bool) returns (r: Result<Success, ToolError>)
      modifies this
      ensures readBefore == old(readBefore)
      ensures r.Err? ==> file == old(file) && cachedSize == old(cachedSize) && proposals == old(proposals)
      ensures r.Ok? <==>
        old(readBefore) && old(file).Text? && ApplyEdits(old(file).content, edits, |edits|).Ok? && (planMode || writeOk)
      ensures r.Ok? ==>
        var done := ApplyEdits(old(file).content, edits, |edits|).value;
        && r.value == Success(done.replacements, |done.content|) && cachedSize == |done.content|
        && file == (if planMode then old(file) else Text(done.content))
        && proposals == old(proposals) + if planMode then [Proposal(old(file).content, done.content)] else []
      ensures old(readBefore) && old(file).Text? && ApplyEdits(old(file).content, edits, |edits|).Err? ==>
        r == Err(Refused(ApplyEdits(old(file).content, edits, |edits|).error))
    {
      hide ApplyEdits;
      if !readBefore { return Err(NotRead); }
      match file {
        case Binary => return Err(NotText);
        case TooLarge => return Err(NotText);
        case Missing => return Err(NoFile);
        case ReadFails => return Err(Environment);
        case Text(original) =>
          var edited := ApplyAll(original, edits);
          if edited.Err? { return Err(Refused(edited.error)); }
          var content := edited.value.content;
          if planMode {
            proposals := proposals + [Proposal(original, content)];
          } else {
            if !writeOk { return Err(Environment); }
            file := Text(content);
          }
          cachedSize := |content|;
          return Ok(Success(edited.value.replacements, |content|));
      }
    }
  }
}
