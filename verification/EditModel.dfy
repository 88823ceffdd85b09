/**
 Exact-string edits: counting occurrences, replacing them, and applying a list of edits in order.
 */
module EditModel {
  import opened Wrappers
  import opened JsonModel

  datatype Edit = Edit(oldText: string, newText: string, all: bool)

  datatype EditError = Identical | EmptyPattern | NotFound | NotUnique

  /** `content.indexOf(pattern, from)`; None stands for -1. */
  function IndexOf(content: string, pattern: string, from: nat): (r: Option<nat>)
    requires from <= |content|
    ensures r.Some? ==> from <= r.value && r.value + |pattern| <= |content| && Occurs(content, pattern, r.value)
    ensures forall i :: from <= i && (r.None? || i < r.value) && i + |pattern| <= |content| ==> !Occurs(content, pattern, i)
    decreases |content| - from
  {
    if from + |pattern| > |content| then None
    else if Occurs(content, pattern, from) then Some(from)
    else if from == |content| then None
    else IndexOf(content, pattern, from + 1)
  }

  predicate Occurs(content: string, pattern: string, i: nat)
    requires i + |pattern| <= |content|
  {
    content[i..i + |pattern|] == pattern
  }

  /** `content.split(pattern)` of a non-empty pattern. */
  function SplitBy(content: string, pattern: string): (r: seq<string>)
    requires pattern != ""
    ensures r != []
    decreases |content|
  {
    var i := IndexOf(content, pattern, 0);
    if i.None? then [content]
    else [content[..i.value]] + SplitBy(content[i.value + |pattern|..], pattern)
  }

  /** `pieces.join(sub)`. */
  function Join(pieces: seq<string>, sub: string): string
    requires pieces != []
  {
    if |pieces| == 1 then pieces[0] else pieces[0] + sub + Join(pieces[1..], sub)
  }

  /** The number of separators of the split. */
  function Count(content: string, pattern: string): nat
    requires pattern != ""
  {
    |SplitBy(content, pattern)| - 1
  }

  // ----- single replacement -----

  /** The `$` patterns `String.replace` interprets when the pattern is a plain string. */
  predicate Special(c: char) {
    c == '$' || c == '&' || c == '`' || c == '\''
  }

  /** The replacement text of one match, with the text before and after it. */
  function Expand(text: string, matched: string, before: string, after: string): string {
    if |text| < 2 then text
    else if text[0] == '$' && Special(text[1]) then
      (if text[1] == '$' then "$" else if text[1] == '&' then matched else if text[1] == '`' then before else after) +
      Expand(text[2..], matched, before, after)
    else [text[0]] + Expand(text[1..], matched, before, after)
  }

  /** No `$` stands before a character that makes it a pattern. */
  predicate Literal(text: string) {
    forall i :: 0 <= i < |text| - 1 ==> !(text[i] == '$' && Special(text[i + 1]))
  }

  /** `content.replace(pattern, text)`: the first occurrence only. */
  function ReplaceOnce(content: string, pattern: string, text: string): string {
    var i := IndexOf(content, pattern, 0);
    if i.None? then content
    else
      var before, after := content[..i.value], content[i.value + |pattern|..];
      before + Expand(text, pattern, before, after) + after
  }

  // ----- edits -----

  function ApplyEdit(content: string, e: Edit): Result<string, EditError> {
    if e.oldText == e.newText then Err(Identical)
    else if e.oldText == "" then Err(EmptyPattern)
    else
      var count := Count(content, e.oldText);
      if count == 0 then Err(NotFound)
      else if !e.all && count > 1 then Err(NotUnique)
      else Ok(if e.all then Join(SplitBy(content, e.oldText), e.newText) else ReplaceOnce(content, e.oldText, e.newText))
  }

  datatype Edited = Edited(content: string, replacements: nat)

  /** The first `n` edits in order. */
  function ApplyEdits(content: string, edits: seq<Edit>, n: nat): Result<Edited, EditError>
    requires n <= |edits|
  {
    if n == 0 then Ok(Edited(content, 0))
    else
      var before := ApplyEdits(content, edits, n - 1);
      if before.Err? then before
      else
        var e := edits[n - 1];
        var next := ApplyEdit(before.value.content, e);
        if next.Err? then Err(next.error)
        else
          var made := if e.all then Count(before.value.content, e.oldText) else 1;
          Ok(Edited(next.value, before.value.replacements + made))
  }
}
