/**
 Edits replace leftmost, non-overlapping occurrences literally, and change the length by the law of the count.
 */
module EditSafety {
  import opened Wrappers
  import opened JsonModel
  import opened EditModel

  // ----- occurrences -----

  lemma {:induction false} IndexIs(content: string, pattern: string, from: nat, i: nat)
    requires from <= i && i + |pattern| <= |content| && Occurs(content, pattern, i)
    requires forall k :: from <= k < i ==> !Occurs(content, pattern, k)
    ensures IndexOf(content, pattern, from) == Some(i)
    decreases i - from
  {
    if from < i { IndexIs(content, pattern, from + 1, i); }
  }

  lemma {:induction false} IndexNone(content: string, pattern: string, from: nat)
    requires from <= |content|
    requires forall k :: from <= k && k + |pattern| <= |content| ==> !Occurs(content, pattern, k)
    ensures IndexOf(content, pattern, from) == None
    decreases |content| - from
  {
    if from < |content| && from + |pattern| <= |content| { IndexNone(content, pattern, from + 1); }
  }

  /** Searching from a position is searching the rest of the text. */
  lemma IndexFrom(content: string, pattern: string, from: nat)
    requires from <= |content|
    ensures var r := IndexOf(content, pattern, from);
      IndexOf(content[from..], pattern, 0) == if r.None? then None else Some(r.value - from)
  {
    hide IndexOf;
    var rest := content[from..];
    forall k: nat | k + |pattern| <= |rest| ensures Occurs(rest, pattern, k) <==> Occurs(content, pattern, from + k) {
      assert rest[k..k + |pattern|] == content[from + k..from + k + |pattern|];
    }
    var r := IndexOf(content, pattern, from);
    if r.None? { IndexNone(rest, pattern, 0); } else { IndexIs(rest, pattern, 0, r.value - from); }
  }

  lemma ReplaceHit(content: string, pattern: string, sub: string)
    requires pattern != "" && |pattern| <= |content| && Occurs(content, pattern, 0)
    ensures ReplaceAll(content, pattern, sub) == sub + ReplaceAll(content[|pattern|..], pattern, sub)
  {
    assert content[0..|pattern|] == content[..|pattern|];
  }

  lemma ReplaceSkip(content: string, pattern: string, sub: string)
    requires pattern != "" && |pattern| <= |content| && !Occurs(content, pattern, 0)
    ensures ReplaceAll(content, pattern, sub) == [content[0]] + ReplaceAll(content[1..], pattern, sub)
  {
    assert content[0..|pattern|] == content[..|pattern|];
  }

  /** Occurrences in the text without its first character. */
  lemma OccursShift(content: string, pattern: string, k: nat)
    requires content != "" && k + |pattern| <= |content| - 1
    ensures Occurs(content[1..], pattern, k) <==> Occurs(content, pattern, k + 1)
  {
    assert content[1..][k..k + |pattern|] == content[k + 1..k + 1 + |pattern|];
  }

  /** Replacing all occurrences leaves the text before the first one alone. */
  lemma {:induction false} ReplaceAllAt(content: string, pattern: string, sub: string, i: nat)
    requires pattern != "" && i + |pattern| <= |content| && Occurs(content, pattern, i)
    requires forall k :: 0 <= k < i ==> !Occurs(content, pattern, k)
    ensures ReplaceAll(content, pattern, sub) == content[..i] + (sub + ReplaceAll(content[i + |pattern|..], pattern, sub))
    decreases i
  {
    hide ReplaceAll, Occurs;
    if i == 0 {
      ReplaceHit(content, pattern, sub);
      assert content[..0] + (sub + ReplaceAll(content[|pattern|..], pattern, sub)) == sub + ReplaceAll(content[|pattern|..], pattern, sub);
    } else {
      var rest := content[1..];
      forall k | 0 <= k < i - 1 ensures !Occurs(rest, pattern, k) { OccursShift(content, pattern, k); }
      OccursShift(content, pattern, i - 1);
      ReplaceSkip(content, pattern, sub);
      ReplaceAllAt(rest, pattern, sub, i - 1);
      assert rest[i - 1 + |pattern|..] == content[i + |pattern|..];
      Prepend(content, i, sub + ReplaceAll(content[i + |pattern|..], pattern, sub));
    }
  }

  lemma Prepend(content: string, i: nat, rest: string)
    requires 0 < i <= |content|
    ensures [content[0]] + (content[1..][..i - 1] + rest) == content[..i] + rest
  {
  }

  lemma {:induction false} ReplaceAllNone(content: string, pattern: string, sub: string)
    requires pattern != "" && forall k :: 0 <= k && k + |pattern| <= |content| ==> !Occurs(content, pattern, k)
    ensures ReplaceAll(content, pattern, sub) == content
    decreases |content|
  {
    hide Occurs;
    if |content| >= |pattern| {
      var rest := content[1..];
      forall k: nat | k + |pattern| <= |rest| ensures !Occurs(rest, pattern, k) {
        OccursShift(content, pattern, k);
        assert !Occurs(content, pattern, k + 1);
      }
      ReplaceSkip(content, pattern, sub);
      ReplaceAllNone(rest, pattern, sub);
      assert content == [content[0]] + rest;
    }
  }

  /** Splitting and joining replaces the leftmost, non-overlapping occurrences. */
  lemma {:induction false} SplitJoinReplaces(content: string, pattern: string, sub: string)
    requires pattern != ""
    ensures Join(SplitBy(content, pattern), sub) == ReplaceAll(content, pattern, sub)
    decreases |content|
  {
    hide IndexOf, ReplaceAll;
    var i := IndexOf(content, pattern, 0);
    if i.None? {
      ReplaceAllNone(content, pattern, sub);
    } else {
      var rest := content[i.value + |pattern|..];
      SplitJoinReplaces(rest, pattern, sub);
      ReplaceAllAt(content, pattern, sub, i.value);
      JoinCons(content[..i.value], SplitBy(rest, pattern), sub);
    }
  }

  lemma JoinCons(piece: string, pieces: seq<string>, sub: string)
    requires pieces != []
    ensures Join([piece] + pieces, sub) == piece + (sub + Join(pieces, sub))
  {
    assert ([piece] + pieces)[1..] == pieces;
    assert piece + sub + Join(pieces, sub) == piece + (sub + Join(pieces, sub));
  }

  /** The length changes by the difference of the strings, once for each occurrence. */
  lemma {:induction false} LengthLaw(content: string, pattern: string, sub: string)
    requires pattern != ""
    ensures |ReplaceAll(content, pattern, sub)| == |content| + Count(content, pattern) * (|sub| - |pattern|)
    decreases |content|
  {
    hide IndexOf, ReplaceAll;
    var i := IndexOf(content, pattern, 0);
    if i.None? {
      ReplaceAllNone(content, pattern, sub);
    } else {
      var rest := content[i.value + |pattern|..];
      LengthLaw(rest, pattern, sub);
      ReplaceAllAt(content, pattern, sub, i.value);
      assert Count(content, pattern) == Count(rest, pattern) + 1;
      Distribute(Count(rest, pattern), |sub| - |pattern|);
    }
  }

  lemma Distribute(n: int, d: int)
    ensures (n + 1) * d == n * d + d
  {
  }

  // ----- the single replacement -----

  lemma {:induction false} LiteralExpands(text: string, matched: string, before: string, after: string)
    requires Literal(text)
    ensures Expand(text, matched, before, after) == text
  {
    if |text| >= 2 {
      assert !(text[0] == '$' && Special(text[1]));
      forall i | 0 <= i < |text[1..]| - 1 ensures !(text[1..][i] == '$' && Special(text[1..][i + 1])) {
        assert text[1..][i] == text[i + 1] && text[1..][i + 1] == text[i + 2];
      }
      LiteralExpands(text[1..], matched, before, after);
      assert text == [text[0]] + text[1..];
    }
  }

  /** In the shortest of files every `$` pattern makes the replacement shorter. */
  lemma {:induction false} PatternsShrink(text: string, matched: string)
    requires |matched| == 1
    ensures |Expand(text, matched, "", "")| <= |text|
    ensures !Literal(text) ==> |Expand(text, matched, "", "")| < |text|
  {
    if |text| >= 2 {
      if text[0] == '$' && Special(text[1]) {
        PatternsShrink(text[2..], matched);
      } else {
        PatternsShrink(text[1..], matched);
        if !Literal(text) {
          var i :| 0 <= i < |text| - 1 && text[i] == '$' && Special(text[i + 1]);
          assert text[1..][i - 1] == '$' && Special(text[1..][i - 1 + 1]);
        }
      }
    }
  }

  /** A replacement text is taken literally in every file exactly when it holds no `$` pattern. */
  lemma LiteralIffNoPattern(text: string)
    ensures Literal(text) <==> forall matched, before, after :: Expand(text, matched, before, after) == text
  {
    hide Expand, Literal;
    if Literal(text) {
      forall matched, before, after ensures Expand(text, matched, before, after) == text {
        LiteralExpands(text, matched, before, after);
      }
    } else {
      PatternsShrink(text, "x");
    }
  }

  /** A unique occurrence replaced once is all occurrences replaced. */
  lemma OnceIsAll(content: string, pattern: string, text: string)
    requires pattern != "" && Count(content, pattern) == 1 && Literal(text)
    ensures ReplaceOnce(content, pattern, text) == ReplaceAll(content, pattern, text)
  {
    hide IndexOf, ReplaceAll, Literal, Expand;
    var i := IndexOf(content, pattern, 0);
    if i.Some? {
      var before, after := content[..i.value], content[i.value + |pattern|..];
      LiteralExpands(text, pattern, before, after);
      ReplaceAllAt(content, pattern, text, i.value);
      assert IndexOf(after, pattern, 0).None? by { OnePiece(content, pattern); }
      ReplaceAllNone(after, pattern, text);
      assert before + text + after == before + (text + after);
    }
  }

  lemma OnePiece(content: string, pattern: string)
    requires pattern != "" && Count(content, pattern) == 1
    ensures var i := IndexOf(content, pattern, 0);
      i.Some? && IndexOf(content[i.value + |pattern|..], pattern, 0).None?
  {
    hide IndexOf;
  }

  // ----- what the uniqueness check means -----

  predicate OccursAt(content: string, pattern: string, i: int) {
    0 <= i && i + |pattern| <= |content| && Occurs(content, pattern, i)
  }

  ghost predicate OccursOnce(content: string, pattern: string) {
    exists i :: OccursAt(content, pattern, i) && forall k :: OccursAt(content, pattern, k) ==> k == i
  }

  /** The pattern shifted by `k` agrees with itself, so two matches may overlap. */
  predicate Overlaps(pattern: string, k: int) {
    0 < k < |pattern| && pattern[k..] == pattern[..|pattern| - k]
  }

  ghost predicate Borderless(pattern: string) {
    forall k :: !Overlaps(pattern, k)
  }

  /** Two matches that start less than a pattern apart make the pattern overlap itself. */
  lemma CloseMatchesOverlap(content: string, pattern: string, i: int, k: int)
    requires OccursAt(content, pattern, i) && OccursAt(content, pattern, k) && i < k < i + |pattern|
    ensures Overlaps(pattern, k - i)
  {
    var d, m := k - i, |pattern|;
    var first, second := content[i..i + m], content[k..k + m];
    assert first == pattern && second == pattern;
    assert first[d..] == content[k..i + m];
    assert second[..m - d] == content[k..i + m];
  }

  lemma BorderlessIsUnique(content: string, pattern: string)
    requires pattern != "" && Borderless(pattern) && Count(content, pattern) == 1
    ensures OccursOnce(content, pattern)
  {
    hide IndexOf, SplitBy, Overlaps, Occurs;
    OnePiece(content, pattern);
    var i := IndexOf(content, pattern, 0).value;
    var rest := content[i + |pattern|..];
    assert OccursAt(content, pattern, i);
    NoMatch(rest, pattern);
    forall k | OccursAt(content, pattern, k) ensures k == i {
      if i < k < i + |pattern| {
        CloseMatchesOverlap(content, pattern, i, k);
      } else if i + |pattern| <= k {
        MatchInRest(content, pattern, i + |pattern|, k);
      }
    }
  }

  lemma NoMatch(content: string, pattern: string)
    requires IndexOf(content, pattern, 0).None?
    ensures forall k :: !OccursAt(content, pattern, k)
  {
    hide IndexOf;
  }

  lemma MatchInRest(content: string, pattern: string, from: nat, k: nat)
    requires from <= k && OccursAt(content, pattern, k)
    ensures OccursAt(content[from..], pattern, k - from)
  {
    assert content[from..][k - from..k - from + |pattern|] == content[k..k + |pattern|];
  }

  /** A pattern that overlaps itself occurs twice in a text where the check counts one. */
  lemma OverlapPassesAsUnique(pattern: string, k: int)
    requires Overlaps(pattern, k)
    ensures var content := pattern + pattern[|pattern| - k..];
      Count(content, pattern) == 1 && OccursAt(content, pattern, 0) && OccursAt(content, pattern, k)
  {
    hide IndexOf;
    var m := |pattern|;
    var content := pattern + pattern[m - k..];
    assert content[0..m] == pattern;
    assert content[k..k + m] == pattern[k..] + pattern[m - k..];
    assert pattern == pattern[..m - k] + pattern[m - k..];
    IndexIs(content, pattern, 0, 0);
    assert content[m..] == pattern[m - k..];
    TooShort(content[m..], pattern);
    assert SplitBy(content, pattern) == [content[..0]] + SplitBy(content[m..], pattern);
  }

  lemma TooShort(content: string, pattern: string)
    requires pattern != "" && |content| < |pattern|
    ensures SplitBy(content, pattern) == [content]
  {
  }

  /**
   A count of one means a unique occurrence, in every text, exactly when no proper suffix of the
   pattern is a prefix of it; a caller sees that on the pattern alone.
   */
  lemma UniqueIffBorderless(pattern: string)
    requires pattern != ""
    ensures (forall content :: Count(content, pattern) == 1 ==> OccursOnce(content, pattern)) <==> Borderless(pattern)
  {
    hide Count, Overlaps, OccursOnce;
    if Borderless(pattern) {
      forall content | Count(content, pattern) == 1 ensures OccursOnce(content, pattern) {
        BorderlessIsUnique(content, pattern);
      }
    } else {
      var k :| Overlaps(pattern, k);
      OverlapPassesAsUnique(pattern, k);
      NotOnce(pattern + pattern[|pattern| - k..], pattern, k) by { OverlapInside(pattern, k); }
    }
  }

  lemma OverlapInside(pattern: string, k: int)
    requires Overlaps(pattern, k)
    ensures 0 < k < |pattern|
  {
  }

  lemma NotOnce(content: string, pattern: string, k: int)
    requires k != 0 && OccursAt(content, pattern, 0) && OccursAt(content, pattern, k)
    ensures !OccursOnce(content, pattern)
  {
    hide OccursAt;
  }

  /** A single edit touches the only occurrence in every file it succeeds on exactly when its old text is borderless. */
  lemma SingleEditIsUnique(e: Edit)
    requires !e.all && e.oldText != "" && e.oldText != e.newText
    ensures (forall content :: ApplyEdit(content, e).Ok? ==> OccursOnce(content, e.oldText)) <==> Borderless(e.oldText)
  {
    hide Count, OccursOnce, Borderless, SplitBy, ReplaceOnce;
    UniqueIffBorderless(e.oldText);
    forall content ensures ApplyEdit(content, e).Ok? <==> Count(content, e.oldText) == 1 {
      if Count(content, e.oldText) == 1 { assert ApplyEdit(content, e).Ok?; }
    }
  }

  // ----- a list of edits -----

  /** The plain form: replace all occurrences, edit after edit. */
  function Fold(content: string, edits: seq<Edit>, n: nat): string
    requires n <= |edits| && forall e :: e in edits ==> e.oldText != ""
  {
    if n == 0 then content else ReplaceAll(Fold(content, edits, n - 1), edits[n - 1].oldText, edits[n - 1].newText)
  }

  /** What the length grows by, edit after edit. */
  function Growth(content: string, edits: seq<Edit>, n: nat): int
    requires n <= |edits| && forall e :: e in edits ==> e.oldText != ""
  {
    if n == 0 then 0
    else
      var e := edits[n - 1];
      Growth(content, edits, n - 1) + Count(Fold(content, edits, n - 1), e.oldText) * (|e.newText| - |e.oldText|)
  }

  /** The number of occurrences the edits find. */
  function Found(content: string, edits: seq<Edit>, n: nat): nat
    requires n <= |edits| && forall e :: e in edits ==> e.oldText != ""
  {
    if n == 0 then 0 else Found(content, edits, n - 1) + Count(Fold(content, edits, n - 1), edits[n - 1].oldText)
  }

  lemma {:induction false} LengthOfFold(content: string, edits: seq<Edit>, n: nat)
    requires n <= |edits| && forall e :: e in edits ==> e.oldText != ""
    ensures |Fold(content, edits, n)| == |content| + Growth(content, edits, n)
  {
    hide ReplaceAll, Count;
    if n > 0 {
      LengthOfFold(content, edits, n - 1);
      LengthLaw(Fold(content, edits, n - 1), edits[n - 1].oldText, edits[n - 1].newText);
    }
  }

  lemma EditIsReplacement(content: string, e: Edit)
    requires ApplyEdit(content, e).Ok? && (e.all || Literal(e.newText))
    ensures e.oldText != "" && ApplyEdit(content, e).value == ReplaceAll(content, e.oldText, e.newText)
    ensures !e.all ==> Count(content, e.oldText) == 1
  {
    hide IndexOf, ReplaceAll, Literal, Expand, SplitBy, Join;
    if e.all {
      SplitJoinReplaces(content, e.oldText, e.newText);
    } else {
      OnceIsAll(content, e.oldText, e.newText);
    }
  }

  /**
   Edits that succeed are the fold of leftmost, non-overlapping literal replacements; the number of
   replacements is the number of occurrences found, and the length grows by the length law.
   */
  lemma {:induction false} EditsAreFold(content: string, edits: seq<Edit>, n: nat)
    requires n <= |edits| && forall e :: e in edits ==> e.oldText != "" && (e.all || Literal(e.newText))
    requires ApplyEdits(content, edits, n).Ok?
    ensures ApplyEdits(content, edits, n).value == Edited(Fold(content, edits, n), Found(content, edits, n))
    ensures |ApplyEdits(content, edits, n).value.content| == |content| + Growth(content, edits, n)
  {
    hide ReplaceAll, Count, ApplyEdit, Literal;
    LengthOfFold(content, edits, n);
    if n > 0 {
      EditsAreFold(content, edits, n - 1);
      EditIsReplacement(Fold(content, edits, n - 1), edits[n - 1]);
    }
  }

  /** Later edits cannot mend an earlier failure. */
  lemma {:induction false} FailureStays(content: string, edits: seq<Edit>, n: nat, m: nat)
    requires n <= m <= |edits| && ApplyEdits(content, edits, n).Err?
    ensures ApplyEdits(content, edits, m) == ApplyEdits(content, edits, n)
    decreases m - n
  {
    hide ApplyEdit, Count;
    if n < m { FailureStays(content, edits, n, m - 1); }
  }
}
