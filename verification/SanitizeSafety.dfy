/**
 Every review entry resolves to a replaced value, and what no entry names is untouched.
 */
module SanitizeSafety {
  import opened Wrappers
  import opened JsonModel
  import Pointers = JsonPointer
  import opened SanitizeModel

  // ----- children -----

  lemma {:induction false} ChildOf(rules: Rules, j: Json, path: Path, n: nat, i: nat)
    requires i < n <= Width(j)
    ensures SanitizeChildren(rules, j, path, n).values[i] == SanitizeChild(rules, j, path, i).value
    ensures forall r :: r in SanitizeChild(rules, j, path, i).reviews ==> r in SanitizeChildren(rules, j, path, n).reviews
  {
    hide SanitizeChild;
    if i < n - 1 { ChildOf(rules, j, path, n - 1, i); }
  }

  /** Each entry of the children comes from one of them. */
  lemma {:induction false} EntryChild(rules: Rules, j: Json, path: Path, n: nat, r: Review) returns (i: nat)
    requires n <= Width(j) && r in SanitizeChildren(rules, j, path, n).reviews
    ensures i < n && r in SanitizeChild(rules, j, path, i).reviews
  {
    hide SanitizeChild;
    if r in SanitizeChild(rules, j, path, n - 1).reviews {
      i := n - 1;
    } else {
      i := EntryChild(rules, j, path, n - 1, r);
    }
  }

  lemma {:induction false} StringEntries(patterns: seq<Pattern>, text: string, path: Path)
    ensures forall r :: r in ReplaceString(patterns, text, path).reviews ==> r.path == path
    ensures ReplaceString(patterns, text, path).reviews == [] ==> ReplaceString(patterns, text, path).text == text
    decreases |patterns|
  {
    if patterns != [] {
      if patterns[0].test(text) {
        StringEntries(patterns[1..], patterns[0].replace(text), path);
      } else {
        StringEntries(patterns[1..], text, path);
      }
    }
  }

  // ----- where the entries point -----

  /**
   The entry names a node of the original, and the node of the result is what replaced it: the
   redaction mark, or the string with the matches of every pattern replaced.
   */
  ghost predicate Resolves(rules: Rules, j: Json, out: Json, base: Path, r: Review) {
    base <= r.path &&
    var was, now := Node(j, r.path[|base|..]), Node(out, r.path[|base|..]);
    && was.Some? && now.Some?
    && (now.value == CREDENTIAL ||
        (was.value.Str? && now.value == Str(ReplaceString(rules.patterns, was.value.text, r.path).text)))
  }

  /** With distinct keys the token of a child leads to it. */
  lemma {:induction false} TokenLeads(j: Json, i: nat)
    requires Valid(j) && i < Width(j)
    ensures Position(j, TokenAt(j, i)) == Some(i)
  {
    if j.Obj? {
      var k := FindKey(j.fields, j.fields[i].key);
      assert k.Some?;
    }
  }

  lemma SameTokens(j: Json, children: seq<Json>, t: Token)
    requires |children| == Width(j) && Valid(j)
    ensures Position(WithChildren(j, children), t) == Position(j, t)
  {
    var out := WithChildren(j, children);
    if j.Obj? && t.Key? {
      assert |out.fields| == |j.fields|;
      forall i | 0 <= i < |j.fields| ensures out.fields[i].key == j.fields[i].key { assert TokenAt(out, i) == TokenAt(j, i); }
      SameKeys(j.fields, out.fields, t.key);
    }
  }

  lemma {:induction false} SameKeys(a: seq<Field>, b: seq<Field>, key: string)
    requires |a| == |b| && forall i :: 0 <= i < |a| ==> a[i].key == b[i].key
    ensures FindKey(a, key) == FindKey(b, key)
  {
    if a != [] { SameKeys(a[1..], b[1..], key); }
  }

  /** Going down one child of the sanitized container. */
  lemma DownOne(rules: Rules, j: Json, path: Path, i: nat, rest: Path)
    requires Valid(j) && !j.Str? && i < Width(j)
    ensures Node(Sanitize(rules, j, path).value, [TokenAt(j, i)] + rest) == Node(SanitizeChild(rules, j, path, i).value, rest)
  {
    hide SanitizeChild, SanitizeChildren, Position, Valid, WithChildren;
    var children := SanitizeChildren(rules, j, path, Width(j)).values;
    var whole := [TokenAt(j, i)] + rest;
    TokenLeads(j, i);
    SameTokens(j, children, TokenAt(j, i));
    ChildOf(rules, j, path, Width(j), i);
    assert whole[0] == TokenAt(j, i) && whole[1..] == rest;
  }

  lemma NodeDown(j: Json, i: nat, rest: Path)
    requires Valid(j) && i < Width(j)
    ensures Node(j, [TokenAt(j, i)] + rest) == Node(Child(j, i), rest)
  {
    hide Position, Valid;
    TokenLeads(j, i);
    assert ([TokenAt(j, i)] + rest)[1..] == rest;
  }

  lemma {:induction false} EntryResolves(rules: Rules, j: Json, path: Path, r: Review)
    requires Valid(j) && r in Sanitize(rules, j, path).reviews
    ensures Resolves(rules, j, Sanitize(rules, j, path).value, path, r)
    decreases j
  {
    hide ReplaceString, SanitizeChildren, Redacts, WithChildren, Position;
    if j.Str? {
      StringEntries(rules.patterns, j.text, path);
      assert r.path[|path|..] == [];
    } else {
      var i := EntryChild(rules, j, path, Width(j), r);
      var childPath := path + [TokenAt(j, i)];
      if Redacts(rules, j, i) {
        assert r.path == childPath;
        DownOne(rules, j, path, i, []);
        NodeDown(j, i, []);
        assert r.path[|path|..] == [TokenAt(j, i)] + [];
      } else {
        EntryResolves(rules, Child(j, i), childPath, r);
        var rest := r.path[|childPath|..];
        DownOne(rules, j, path, i, rest);
        NodeDown(j, i, rest);
        assert r.path[|path|..] == [TokenAt(j, i)] + rest;
      }
    }
  }

  /**
   Every path of the review of a fixture, printed as a JSON Pointer, evaluates on the sanitized
   fixture to the value that replaced the reviewed one. The fixture is an object, so no path is empty.
   */
  lemma ReviewResolves(rules: Rules, fixture: Json, r: Review)
    requires Valid(fixture) && !fixture.Str? && r in Sanitize(rules, fixture, []).reviews
    ensures var out := Sanitize(rules, fixture, []).value;
      && r.path != [] && Resolves(rules, fixture, out, [], r)
      && PointerValue(out, Print(r.path)) == Node(out, r.path)
  {
    hide SanitizeChildren, SanitizeChild, PointerValue;
    EntryResolves(rules, fixture, [], r);
    assert r.path[0..] == r.path;
    var out := Sanitize(rules, fixture, []).value;
    if r.path == [] { NotAString(rules, fixture); }
    Pointers.PointerReachesNode(out, r.path);
  }

  lemma NotAString(rules: Rules, j: Json)
    requires !j.Str?
    ensures !Sanitize(rules, j, []).value.Str?
  {
    hide SanitizeChildren;
  }

  // ----- what is left alone -----

  /** One path is the other or runs through it. */
  predicate Related(a: Path, b: Path) {
    a <= b || b <= a
  }

  /** Without a single entry the value comes out as it went in. */
  lemma {:induction false} NoEntriesUnchanged(rules: Rules, j: Json, path: Path)
    requires Sanitize(rules, j, path).reviews == []
    ensures Sanitize(rules, j, path).value == j
    decreases j
  {
    hide ReplaceString, SanitizeChildren, SanitizeChild, Redacts;
    if j.Str? {
      StringEntries(rules.patterns, j.text, path);
    } else {
      var children := SanitizeChildren(rules, j, path, Width(j));
      forall i | 0 <= i < Width(j) ensures children.values[i] == Child(j, i) {
        ChildOf(rules, j, path, Width(j), i);
        assert SanitizeChild(rules, j, path, i).reviews == [] by { NoneOf(SanitizeChild(rules, j, path, i).reviews, children.reviews); }
        ChildUnredacted(rules, j, path, i);
        NoEntriesUnchanged(rules, Child(j, i), path + [TokenAt(j, i)]);
      }
      SameChildren(j, children.values);
    }
  }

  lemma SomeEntry(a: seq<Review>)
    requires a != []
    ensures exists r :: r in a
  {
    assert a[0] in a;
  }

  lemma NoneOf(a: seq<Review>, b: seq<Review>)
    requires b == [] && forall r :: r in a ==> r in b
    ensures a == []
  {
    if a != [] { SomeEntry(a); }
  }

  lemma ChildUnredacted(rules: Rules, j: Json, path: Path, i: nat)
    requires i < Width(j) && SanitizeChild(rules, j, path, i).reviews == []
    ensures SanitizeChild(rules, j, path, i) == Sanitize(rules, Child(j, i), path + [TokenAt(j, i)])
  {
    hide Sanitize;
  }

  lemma SameChildren(j: Json, children: seq<Json>)
    requires |children| == Width(j) && forall i :: 0 <= i < Width(j) ==> children[i] == Child(j, i)
    ensures WithChildren(j, children) == j
  {
    if j.Obj? {
      assert WithChildren(j, children).fields == j.fields;
    } else if j.Arr? {
      assert children == j.items;
    }
  }

  /** A node that no entry names, contains or lies within is the node of the original. */
  lemma {:induction false} UnreviewedUnchanged(rules: Rules, j: Json, base: Path, path: Path)
    requires Valid(j) && Node(j, path).Some?
    requires forall r :: r in Sanitize(rules, j, base).reviews ==> base <= r.path && !Related(r.path, base + path)
    ensures Node(Sanitize(rules, j, base).value, path) == Node(j, path)
    decreases |path|
  {
    hide ReplaceString, SanitizeChildren, SanitizeChild, Redacts, Sanitize;
    if path == [] {
      assert base + path == base;
      NothingReviewed(Sanitize(rules, j, base).reviews, base);
      NoEntriesUnchanged(rules, j, base);
    } else {
      var i := Position(j, path[0]).value;
      TokenOfPosition(j, path[0]);
      var childPath := base + [TokenAt(j, i)];
      assert base + path == childPath + path[1..];
      assert path == [TokenAt(j, i)] + path[1..];
      ContainerEntries(rules, j, base, i);
      ChildEntries(rules, j, base, i, path[1..]);
      DownOne(rules, j, base, i, path[1..]);
      UnreviewedUnchanged(rules, Child(j, i), childPath, path[1..]);
    }
  }

  lemma NothingReviewed(entries: seq<Review>, base: Path)
    requires forall r :: r in entries ==> base <= r.path && !Related(r.path, base)
    ensures entries == []
  {
    if entries != [] { SomeEntry(entries); }
  }

  lemma TokenOfPosition(j: Json, t: Token)
    requires Position(j, t).Some?
    ensures TokenAt(j, Position(j, t).value) == t && !j.Str?
  {
  }

  lemma ContainerEntries(rules: Rules, j: Json, base: Path, i: nat)
    requires i < Width(j)
    ensures forall r :: r in SanitizeChild(rules, j, base, i).reviews ==> r in Sanitize(rules, j, base).reviews
  {
    hide SanitizeChildren, SanitizeChild;
    ChildOf(rules, j, base, Width(j), i);
  }

  /** The child on the way to an unrelated node is not redacted, and its entries are unrelated too. */
  lemma ChildEntries(rules: Rules, j: Json, base: Path, i: nat, rest: Path)
    requires i < Width(j)
    requires forall r :: r in SanitizeChild(rules, j, base, i).reviews ==> !Related(r.path, base + [TokenAt(j, i)] + rest)
    ensures SanitizeChild(rules, j, base, i) == Sanitize(rules, Child(j, i), base + [TokenAt(j, i)])
    ensures forall r :: r in Sanitize(rules, Child(j, i), base + [TokenAt(j, i)]).reviews ==> base + [TokenAt(j, i)] <= r.path
  {
    hide ReplaceString, SanitizeChildren, Sanitize;
    var childPath := base + [TokenAt(j, i)];
    assert Redacts(rules, j, i) ==> Review(childPath, Credential) in SanitizeChild(rules, j, base, i).reviews;
    assert childPath <= childPath + rest;
    forall r | r in Sanitize(rules, Child(j, i), childPath).reviews ensures childPath <= r.path {
      EntriesBelow(rules, Child(j, i), childPath, r);
    }
  }

  lemma {:induction false} EntriesBelow(rules: Rules, j: Json, path: Path, r: Review)
    requires r in Sanitize(rules, j, path).reviews
    ensures path <= r.path
    decreases j
  {
    hide ReplaceString, SanitizeChildren;
    if j.Str? {
      StringEntries(rules.patterns, j.text, path);
    } else {
      var i := EntryChild(rules, j, path, Width(j), r);
      if !Redacts(rules, j, i) { EntriesBelow(rules, Child(j, i), path + [TokenAt(j, i)], r); }
    }
  }
}
