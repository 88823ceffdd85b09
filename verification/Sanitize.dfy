/**
 The recursive sanitizer with its shared review list.
 */
module Sanitize {
  import opened Wrappers
  import opened JsonModel
  import M = SanitizeModel

  datatype Entry = Entry(path: string, kind: M.Kind)

  ghost function Printed(reviews: seq<M.Review>): seq<Entry> {
    seq(|reviews|, i requires 0 <= i < |reviews| => Entry(Print(reviews[i].path), reviews[i].kind))
  }

  lemma PrintExtends(at: Path, t: Token)
    ensures Print(at + [t]) == Extend(Print(at), t)
  {
    assert (at + [t])[..|at + [t]| - 1] == at;
  }

  lemma PrintedConcat(a: seq<M.Review>, b: seq<M.Review>)
    ensures Printed(a + b) == Printed(a) + Printed(b)
  {
    hide Print;
  }

  lemma ConcatAssociates(a: seq<Entry>, b: seq<Entry>, c: seq<Entry>)
    ensures a + b + c == a + (b + c) && a + [] == a
  {
  }

  lemma PrintedOne(r: M.Review)
    ensures Printed([r]) == [Entry(Print(r.path), r.kind)]
  {
  }

  lemma PrintedNothing()
    ensures Printed([]) == []
  {
  }

  /** One more child of a container, and the entries it prints. */
  lemma ChildrenStep(rules: M.Rules, j: Json, at: Path, i: nat)
    requires i < Width(j)
    ensures M.SanitizeChildren(rules, j, at, i + 1).values ==
      M.SanitizeChildren(rules, j, at, i).values + [M.SanitizeChild(rules, j, at, i).value]
    ensures Printed(M.SanitizeChildren(rules, j, at, i + 1).reviews) ==
      Printed(M.SanitizeChildren(rules, j, at, i).reviews) + Printed(M.SanitizeChild(rules, j, at, i).reviews)
  {
    hide M.SanitizeChild, Printed;
    PrintedConcat(M.SanitizeChildren(rules, j, at, i).reviews, M.SanitizeChild(rules, j, at, i).reviews);
  }

  lemma NoChildren(rules: M.Rules, j: Json, at: Path)
    ensures M.SanitizeChildren(rules, j, at, 0) == M.CleanedItems([], []) && Printed([]) == []
  {
  }

  lemma SanitizeContainer(rules: M.Rules, j: Json, at: Path)
    requires !j.Str?
    ensures M.Sanitize(rules, j, at) ==
      M.Cleaned(WithChildren(j, M.SanitizeChildren(rules, j, at, Width(j)).values), M.SanitizeChildren(rules, j, at, Width(j)).reviews)
  {
    hide M.SanitizeChildren, WithChildren;
  }

  class FixtureSanitizer {
    const rules: M.Rules
    var replacements: seq<Entry>

    constructor (rules: M.Rules)
      ensures this.rules == rules && replacements == []
    {
      this.rules, replacements := rules, [];
    }

    method ReplaceString(input: string, path: string, ghost at: Path) returns (value: string)
      requires path == Print(at)
      modifies this
      ensures value == M.ReplaceString(rules.patterns, input, at).text
      ensures replacements == old(replacements) + Printed(M.ReplaceString(rules.patterns, input, at).reviews)
    {
      hide Printed, Print;
      value := input;
      var i := 0;
      while i < |rules.patterns|
        invariant i <= |rules.patterns|
        invariant M.ReplaceString(rules.patterns[i..], value, at).text == M.ReplaceString(rules.patterns, input, at).text
        invariant replacements + Printed(M.ReplaceString(rules.patterns[i..], value, at).reviews) ==
          old(replacements) + Printed(M.ReplaceString(rules.patterns, input, at).reviews)
      {
        var pattern := rules.patterns[i];
        assert rules.patterns[i..][1..] == rules.patterns[i + 1..];
        if pattern.test(value) {
          ghost var rest := M.ReplaceString(rules.patterns[i + 1..], pattern.replace(value), at).reviews;
          PrintedConcat([M.Review(at, pattern.kind)], rest);
          PrintedOne(M.Review(at, pattern.kind));
          replacements := replacements + [Entry(path, pattern.kind)];
          value := pattern.replace(value);
        }
        i := i + 1;
      }
      PrintedNothing();
    }

    /** `sanitizeValue`; `path` is the printed pointer of the value. */
    method SanitizeValue(input: Json, path: string, ghost at: Path) returns (output: Json)
      requires path == Print(at)
      modifies this
      ensures output == M.Sanitize(rules, input, at).value
      ensures replacements == old(replacements) + Printed(M.Sanitize(rules, input, at).reviews)
      decreases input, 1
    {
      if input.Str? {
        var text := ReplaceString(input.text, path, at);
        return Str(text);
      }
      hide M.SanitizeChildren, M.SanitizeChild, M.Sanitize, Print, Printed, WithChildren, Width;
      SanitizeContainer(rules, input, at);
      var children := [];
      var i := 0;
      NoChildren(rules, input, at);
      ConcatAssociates(replacements, [], []);
      while i < Width(input)
        invariant i <= Width(input)
        invariant children == M.SanitizeChildren(rules, input, at, i).values
        invariant replacements == old(replacements) + Printed(M.SanitizeChildren(rules, input, at, i).reviews)
      {
        ChildrenStep(rules, input, at, i);
        ghost var before, own := M.SanitizeChildren(rules, input, at, i).reviews, M.SanitizeChild(rules, input, at, i).reviews;
        ConcatAssociates(old(replacements), Printed(before), Printed(own));
        var child := SanitizeChild(input, i, path, at);
        children := children + [child];
        i := i + 1;
      }
      return WithChildren(input, children);
    }

    /** One item or field: a redacted field is reviewed under its own path. */
    method SanitizeChild(input: Json, i: nat, path: string, ghost at: Path) returns (output: Json)
      requires path == Print(at) && i < Width(input)
      modifies this
      ensures output == M.SanitizeChild(rules, input, at, i).value
      ensures replacements == old(replacements) + Printed(M.SanitizeChild(rules, input, at, i).reviews)
      decreases input, 0
    {
      hide M.Sanitize, M.SanitizeChildren, Print, Printed, Escape;
      var child := Child(input, i);
      var childPath := Extend(path, TokenAt(input, i));
      PrintExtends(at, TokenAt(input, i));
      if input.Obj? && rules.credentialKey(input.fields[i].key) && child != Null && child != Str("") {
        replacements := replacements + [Entry(childPath, M.Credential)];
        PrintedOne(M.Review(at + [TokenAt(input, i)], M.Credential));
        return M.CREDENTIAL;
      }
      output := SanitizeValue(child, childPath, at + [TokenAt(input, i)]);
    }
  }
}
