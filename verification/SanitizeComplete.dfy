/**
 Nothing is forgotten: which nodes are replaced, by what, and which entries the review holds, node by node.
 */
module SanitizeComplete {
  import opened Wrappers
  import opened JsonModel
  import opened SanitizeModel
  import opened SanitizeSafety

  // ----- strings -----

  /** The text after the first `n` patterns. */
  function After(patterns: seq<Pattern>, n: nat, text: string): string
    requires n <= |patterns|
  {
    if n == 0 then text
    else
      var before := After(patterns, n - 1, text);
      if patterns[n - 1].test(before) then patterns[n - 1].replace(before) else before
  }

  /** A pattern of that kind matches what the ones before it left. */
  ghost predicate Hit(patterns: seq<Pattern>, text: string, kind: Kind) {
    exists k :: 0 <= k < |patterns| && HitAt(patterns, k, text, kind)
  }

  ghost predicate HitAt(patterns: seq<Pattern>, k: nat, text: string, kind: Kind)
    requires k < |patterns|
  {
    patterns[k].test(After(patterns, k, text)) && patterns[k].kind == kind
  }

  /** One more pattern. */
  lemma PatternReplaces(patterns: seq<Pattern>, i: nat, text: string, path: Path)
    requires i < |patterns|
    ensures var now := After(patterns, i, text);
      var r, rest := ReplaceString(patterns[i..], now, path), ReplaceString(patterns[i + 1..], After(patterns, i + 1, text), path);
      && r.text == rest.text
      && r.reviews == (if patterns[i].test(now) then [Review(path, patterns[i].kind)] else []) + rest.reviews
  {
    assert patterns[i..][0] == patterns[i] && patterns[i..][1..] == patterns[i + 1..];
  }

  lemma NoPatterns(text: string, path: Path)
    ensures ReplaceString([], text, path) == CleanedText(text, [])
  {
  }

  lemma {:induction false} SuffixReplaces(patterns: seq<Pattern>, i: nat, text: string, path: Path)
    requires i <= |patterns|
    ensures var r := ReplaceString(patterns[i..], After(patterns, i, text), path);
      && r.text == After(patterns, |patterns|, text)
      && forall e :: e in r.reviews <==>
           e.path == path && exists k :: i <= k < |patterns| && HitAt(patterns, k, text, e.kind)
    decreases |patterns| - i
  {
    hide ReplaceString, After;
    if i == |patterns| {
      assert patterns[i..] == [];
      NoPatterns(After(patterns, i, text), path);
    } else {
      SuffixReplaces(patterns, i + 1, text, path);
      PatternReplaces(patterns, i, text, path);
      var r, now := ReplaceString(patterns[i..], After(patterns, i, text), path), After(patterns, i, text);
      forall e ensures e in r.reviews <==>
        e.path == path && exists k :: i <= k < |patterns| && HitAt(patterns, k, text, e.kind)
      {
        HitHere(patterns, i, text, e.kind);
      }
    }
  }

  lemma HitHere(patterns: seq<Pattern>, i: nat, text: string, kind: Kind)
    requires i < |patterns|
    ensures (exists k :: i <= k < |patterns| && HitAt(patterns, k, text, kind)) <==>
      HitAt(patterns, i, text, kind) || exists k :: i + 1 <= k < |patterns| && HitAt(patterns, k, text, kind)
  {
    hide HitAt;
  }

  lemma TextReplaced(patterns: seq<Pattern>, text: string, path: Path)
    ensures ReplaceString(patterns, text, path).text == After(patterns, |patterns|, text)
    ensures forall e :: e in ReplaceString(patterns, text, path).reviews <==> e.path == path && Hit(patterns, text, e.kind)
  {
    hide ReplaceString, HitAt;
    assert patterns[0..] == patterns;
    assert After(patterns, 0, text) == text;
    SuffixReplaces(patterns, 0, text, path);
  }

  // ----- fields replaced by name -----

  /** The path ends at a field with a credential name and a value that is neither null nor empty. */
  predicate Named(rules: Rules, j: Json, p: Path) {
    p != [] &&
    var parent, node := Node(j, p[..|p| - 1]), Node(j, p);
    && parent.Some? && parent.value.Obj? && p[|p| - 1].Key? && rules.credentialKey(p[|p| - 1].key)
    && node.Some? && node.value != Null && node.value != Str("")
  }

  /** Neither the node nor anything above it is replaced by name. */
  ghost predicate Clear(rules: Rules, j: Json, p: Path) {
    forall n :: 0 < n <= |p| ==> !Named(rules, j, p[..n])
  }

  /** The node is replaced by name and nothing above it is. */
  ghost predicate FirstNamed(rules: Rules, j: Json, p: Path) {
    Named(rules, j, p) && forall n :: 0 < n < |p| ==> !Named(rules, j, p[..n])
  }

  lemma NodeStep(j: Json, i: nat, rest: Path)
    requires Valid(j) && i < Width(j)
    ensures Node(j, [TokenAt(j, i)] + rest) == Node(Child(j, i), rest)
  {
    NodeDown(j, i, rest);
  }

  lemma NamedDown(rules: Rules, j: Json, i: nat, rest: Path)
    requires Valid(j) && i < Width(j)
    ensures rest == [] ==> (Named(rules, j, [TokenAt(j, i)]) <==> Redacts(rules, j, i))
    ensures rest != [] ==> (Named(rules, j, [TokenAt(j, i)] + rest) <==> Named(rules, Child(j, i), rest))
  {
    hide Valid, Position;
    var t := TokenAt(j, i);
    NodeStep(j, i, rest);
    if rest == [] {
      assert [t] + [] == [t] && [t][..0] == [];
    } else {
      NodeStep(j, i, rest[..|rest| - 1]);
      assert ([t] + rest)[..|rest|] == [t] + rest[..|rest| - 1];
      assert ([t] + rest)[|rest|] == rest[|rest| - 1];
    }
  }

  lemma ClearDown(rules: Rules, j: Json, i: nat, rest: Path)
    requires Valid(j) && i < Width(j)
    ensures Clear(rules, j, [TokenAt(j, i)] + rest) <==> !Redacts(rules, j, i) && Clear(rules, Child(j, i), rest)
    ensures rest == [] ==> (FirstNamed(rules, j, [TokenAt(j, i)] + rest) <==> Redacts(rules, j, i))
    ensures rest != [] ==>
      (FirstNamed(rules, j, [TokenAt(j, i)] + rest) <==> !Redacts(rules, j, i) && FirstNamed(rules, Child(j, i), rest))
  {
    hide Valid, Named, Redacts;
    var t := TokenAt(j, i);
    var p := [t] + rest;
    NamedDown(rules, j, i, []);
    NamedDown(rules, j, i, rest);
    assert p[..1] == [t] && [t] + [] == [t];
    assert p[..|p|] == p;
    forall n | 0 < n <= |rest| ensures Named(rules, j, p[..n + 1]) <==> Named(rules, Child(j, i), rest[..n]) {
      assert p[..n + 1] == [t] + rest[..n];
      NamedDown(rules, j, i, rest[..n]);
    }
    if Clear(rules, j, p) {
      forall n | 0 < n <= |rest| ensures !Named(rules, Child(j, i), rest[..n]) { assert !Named(rules, j, p[..n + 1]); }
    }
    if !Redacts(rules, j, i) && Clear(rules, Child(j, i), rest) {
      forall n | 0 < n <= |p| ensures !Named(rules, j, p[..n]) { if n > 1 { assert !Named(rules, Child(j, i), rest[..n - 1]); } }
    }
    if rest != [] {
      assert rest[..|rest|] == rest;
      if FirstNamed(rules, j, p) {
        assert !Named(rules, j, p[..1]);
        forall n | 0 < n < |rest| ensures !Named(rules, Child(j, i), rest[..n]) { assert !Named(rules, j, p[..n + 1]); }
      }
      if !Redacts(rules, j, i) && FirstNamed(rules, Child(j, i), rest) {
        forall n | 0 < n < |p| ensures !Named(rules, j, p[..n]) { if n > 1 { assert !Named(rules, Child(j, i), rest[..n - 1]); } }
      }
    }
  }

  // ----- the sanitized node -----

  /** A node in its sanitized form: a string through all patterns, a container of the same shape, anything else as it was. */
  ghost predicate Cleans(patterns: seq<Pattern>, was: Json, now: Json) {
    match was
    case Str(text) => now == Str(After(patterns, |patterns|, text))
    case Arr(items) => now.Arr? && |now.items| == |items|
    case Obj(fields) => now.Obj? && |now.fields| == |fields| && forall i :: 0 <= i < |fields| ==> now.fields[i].key == fields[i].key
    case _ => now == was
  }

  lemma RootCleans(rules: Rules, j: Json, base: Path)
    ensures Cleans(rules.patterns, j, Sanitize(rules, j, base).value)
  {
    hide SanitizeChildren, ReplaceString;
    if j.Str? {
      TextReplaced(rules.patterns, j.text, base);
    } else if j.Obj? {
      var out := Sanitize(rules, j, base).value;
      forall i | 0 <= i < |j.fields| ensures out.fields[i].key == j.fields[i].key { assert TokenAt(out, i) == TokenAt(j, i); }
    }
  }

  lemma {:induction false} NodeCleans(rules: Rules, j: Json, base: Path, p: Path)
    requires Valid(j) && Node(j, p).Some?
    ensures Clear(rules, j, p) ==>
      var now := Node(Sanitize(rules, j, base).value, p);
      now.Some? && Cleans(rules.patterns, Node(j, p).value, now.value)
    ensures FirstNamed(rules, j, p) ==> Node(Sanitize(rules, j, base).value, p) == Some(CREDENTIAL)
    decreases |p|
  {
    hide ReplaceString, SanitizeChildren, SanitizeChild, Redacts, Sanitize, Clear, FirstNamed, Cleans;
    if p == [] {
      RootCleans(rules, j, base);
      NotFirstNamed(rules, j);
    } else {
      var i := Position(j, p[0]).value;
      TokenOfPosition(j, p[0]);
      var rest := p[1..];
      assert p == [TokenAt(j, i)] + rest;
      ClearDown(rules, j, i, rest);
      DownOne(rules, j, base, i, rest);
      ChildIs(rules, j, base, i);
      if !Redacts(rules, j, i) {
        NodeCleans(rules, Child(j, i), base + [TokenAt(j, i)], rest);
      }
    }
  }

  lemma NotFirstNamed(rules: Rules, j: Json)
    ensures !FirstNamed(rules, j, [])
  {
  }

  lemma ChildIs(rules: Rules, j: Json, base: Path, i: nat)
    requires i < Width(j)
    ensures var c, at := SanitizeChild(rules, j, base, i), base + [TokenAt(j, i)];
      if Redacts(rules, j, i) then c == Cleaned(CREDENTIAL, [Review(at, Credential)])
      else c == Sanitize(rules, Child(j, i), at)
  {
    hide Redacts, Sanitize;
  }

  // ----- the review -----

  /** The node is listed: replaced by name, or a string some pattern of that kind hit. */
  ghost predicate Listed(rules: Rules, j: Json, p: Path, kind: Kind) {
    Node(j, p).Some? &&
    ((kind == Credential && FirstNamed(rules, j, p))
     || (Clear(rules, j, p) && Node(j, p).value.Str? && Hit(rules.patterns, Node(j, p).value.text, kind)))
  }

  lemma RootListed(rules: Rules, j: Json, base: Path, kind: Kind)
    ensures j.Str? ==> (Review(base, kind) in Sanitize(rules, j, base).reviews <==> Listed(rules, j, [], kind))
    ensures !j.Str? ==> !Listed(rules, j, [], kind)
  {
    hide ReplaceString, SanitizeChildren, Hit;
    NotFirstNamed(rules, j);
    if j.Str? { TextReplaced(rules.patterns, j.text, base); }
  }

  /** An entry is listed for its own node, and every listed node has its entry. */
  lemma {:induction false} ReviewListed(rules: Rules, j: Json, base: Path, p: Path, kind: Kind)
    requires Valid(j)
    ensures Review(base + p, kind) in Sanitize(rules, j, base).reviews <==> Listed(rules, j, p, kind)
    decreases |p|
  {
    hide ReplaceString, SanitizeChildren, SanitizeChild, Redacts, Sanitize, Listed, Valid;
    if p == [] {
      assert base + p == base;
      RootListed(rules, j, base, kind);
      if !j.Str? { NoRootEntry(rules, j, base, kind); }
    } else if j.Str? || Position(j, p[0]).None? {
      NotListed(rules, j, p, kind);
      NoEntryAt(rules, j, base, p, kind);
    } else {
      var i := Position(j, p[0]).value;
      TokenOfPosition(j, p[0]);
      var t, rest := TokenAt(j, i), p[1..];
      assert p == [t] + rest;
      assert base + p == base + [t] + rest;
      ValidChild(j, i);
      EntryOfChild(rules, j, base, i, Review(base + p, kind));
      ChildIs(rules, j, base, i);
      ListedDown(rules, j, i, rest, kind);
      if Redacts(rules, j, i) {
        assert base + [t] + rest == base + [t] <==> rest == [];
      } else {
        ReviewListed(rules, Child(j, i), base + [t], rest, kind);
      }
    }
  }

  lemma ValidChild(j: Json, i: nat)
    requires Valid(j) && i < Width(j)
    ensures Valid(Child(j, i))
  {
  }

  lemma ListedDown(rules: Rules, j: Json, i: nat, rest: Path, kind: Kind)
    requires Valid(j) && i < Width(j)
    ensures Redacts(rules, j, i) ==> (Listed(rules, j, [TokenAt(j, i)] + rest, kind) <==> rest == [] && kind == Credential)
    ensures !Redacts(rules, j, i) ==>
      (Listed(rules, j, [TokenAt(j, i)] + rest, kind) <==> Listed(rules, Child(j, i), rest, kind))
  {
    hide Valid, Clear, FirstNamed, Redacts, Hit;
    NodeStep(j, i, rest);
    ClearDown(rules, j, i, rest);
    NotFirstNamed(rules, Child(j, i));
  }

  lemma NotListed(rules: Rules, j: Json, p: Path, kind: Kind)
    requires p != [] && (j.Str? || Position(j, p[0]).None?)
    ensures !Listed(rules, j, p, kind)
  {
  }

  /** Entries of a container lie below one of its children. */
  lemma NoEntryAt(rules: Rules, j: Json, base: Path, p: Path, kind: Kind)
    requires Valid(j) && p != [] && (j.Str? || Position(j, p[0]).None?)
    ensures Review(base + p, kind) !in Sanitize(rules, j, base).reviews
  {
    hide ReplaceString, SanitizeChildren, SanitizeChild, Position, Valid;
    if Review(base + p, kind) in Sanitize(rules, j, base).reviews {
      if j.Str? {
        StringEntries(rules.patterns, j.text, base);
      } else {
        var i := EntryChild(rules, j, base, Width(j), Review(base + p, kind));
        EntryBelowChild(rules, j, base, i, Review(base + p, kind));
        assert (base + p)[|base|] == p[0];
        TokenLeads(j, i);
      }
    }
  }

  lemma NoRootEntry(rules: Rules, j: Json, base: Path, kind: Kind)
    requires !j.Str?
    ensures Review(base, kind) !in Sanitize(rules, j, base).reviews
  {
    hide ReplaceString, SanitizeChildren, SanitizeChild;
    if Review(base, kind) in Sanitize(rules, j, base).reviews {
      var i := EntryChild(rules, j, base, Width(j), Review(base, kind));
      EntryBelowChild(rules, j, base, i, Review(base, kind));
    }
  }

  lemma EntryBelowChild(rules: Rules, j: Json, base: Path, i: nat, r: Review)
    requires i < Width(j) && r in SanitizeChild(rules, j, base, i).reviews
    ensures |base| < |r.path| && r.path[|base|] == TokenAt(j, i)
  {
    hide Sanitize, Redacts;
    var at := base + [TokenAt(j, i)];
    ChildIs(rules, j, base, i);
    if !Redacts(rules, j, i) { EntriesBelow(rules, Child(j, i), at, r); }
    assert at <= r.path;
    assert at[|base|] == r.path[|base|];
  }

  /** An entry below a child is an entry of the container exactly when it is one of that child. */
  lemma EntryOfChild(rules: Rules, j: Json, base: Path, i: nat, r: Review)
    requires Valid(j) && !j.Str? && i < Width(j) && |base| < |r.path| && r.path[|base|] == TokenAt(j, i)
    ensures r in Sanitize(rules, j, base).reviews <==> r in SanitizeChild(rules, j, base, i).reviews
  {
    hide SanitizeChild, Valid, Position;
    ChildOf(rules, j, base, Width(j), i);
    if r in Sanitize(rules, j, base).reviews {
      var k := EntryChild(rules, j, base, Width(j), r);
      EntryBelowChild(rules, j, base, k, r);
      TokenLeads(j, i);
      TokenLeads(j, k);
    }
  }

  // ----- the theorem -----

  /**
   Sanitizing a fixture, node by node. A field with a credential name and a value becomes the redaction
   mark, as a whole; outside such fields every string goes through all patterns in their order, every
   container keeps its shape and everything else stays as it was. The review lists exactly the fields
   replaced by name, and exactly the strings hit by a pattern, under the kind of each pattern that hit.
   */
  lemma SanitizedEverywhere(rules: Rules, fixture: Json, p: Path, kind: Kind)
    requires Valid(fixture)
    ensures var out := Sanitize(rules, fixture, []);
      && (Review(p, kind) in out.reviews <==> Listed(rules, fixture, p, kind))
      && (Node(fixture, p).Some? && FirstNamed(rules, fixture, p) ==> Node(out.value, p) == Some(CREDENTIAL))
      && (Node(fixture, p).Some? && Clear(rules, fixture, p) ==>
            Node(out.value, p).Some? && Cleans(rules.patterns, Node(fixture, p).value, Node(out.value, p).value))
  {
    hide Sanitize, Listed, Clear, FirstNamed, Cleans, Valid;
    assert [] + p == p;
    ReviewListed(rules, fixture, [], p, kind);
    if Node(fixture, p).Some? { NodeCleans(rules, fixture, [], p); }
  }
}
