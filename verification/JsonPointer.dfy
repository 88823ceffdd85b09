/**
 Printing a path and evaluating the pointer reaches the node (sections 3 and 4 of RFC 6901).
 */
module JsonPointer {
  import opened Wrappers
  import opened JsonModel

  // ----- escaping -----

  /** The escape of one character. */
  function Code(c: char): string {
    if c == '~' then "~0" else if c == '/' then "~1" else [c]
  }

  function Encode(s: string): string {
    if s == "" then "" else Code(s[0]) + Encode(s[1..])
  }

  lemma {:induction false} EscapeEncodes(s: string)
    ensures Escape(s) == Encode(s)
  {
    if s != "" {
      EscapeEncodes(s[1..]);
      var rest := ReplaceAll(s[1..], "~", "~0");
      if s[0] == '~' {
        assert s[..1] == "~";
        assert ReplaceAll(s, "~", "~0") == "~0" + rest;
        ReplaceSkips("~0", rest, "/", "~1");
      } else {
        assert s[..1] != "~" by { assert s[..1][0] == s[0]; }
        assert ReplaceAll(s, "~", "~0") == [s[0]] + rest;
        if s[0] == '/' {
          assert ([s[0]] + rest)[..1] == "/" && ([s[0]] + rest)[1..] == rest;
        } else {
          ReplaceSkips([s[0]], rest, "/", "~1");
        }
      }
    }
  }

  /** A one-character pattern passes over a prefix that does not hold it. */
  lemma {:induction false} ReplaceSkips(prefix: string, rest: string, pattern: string, sub: string)
    requires |pattern| == 1 && forall i :: 0 <= i < |prefix| ==> prefix[i] != pattern[0]
    ensures ReplaceAll(prefix + rest, pattern, sub) == prefix + ReplaceAll(rest, pattern, sub)
    decreases |prefix|
  {
    var s := prefix + rest;
    if prefix == "" {
      assert s == rest;
    } else {
      assert s[..1][0] == prefix[0];
      assert s[1..] == prefix[1..] + rest;
      ReplaceSkips(prefix[1..], rest, pattern, sub);
      assert [s[0]] + (prefix[1..] + ReplaceAll(rest, pattern, sub)) == prefix + ReplaceAll(rest, pattern, sub);
    }
  }

  /** A two-character pattern is replaced where it stands in front. */
  lemma ReplacePattern(pattern: string, rest: string, sub: string)
    requires |pattern| == 2
    ensures ReplaceAll(pattern + rest, pattern, sub) == sub + ReplaceAll(rest, pattern, sub)
  {
    assert (pattern + rest)[..2] == pattern && (pattern + rest)[2..] == rest;
  }

  /** It leaves a character alone that it does not begin with. */
  lemma ReplaceChar(c: char, rest: string, pattern: string, sub: string)
    requires |pattern| == 2 && c != pattern[0]
    ensures ReplaceAll([c] + rest, pattern, sub) == [c] + ReplaceAll(rest, pattern, sub)
  {
    var s := [c] + rest;
    assert s[1..] == rest;
    if |s| >= 2 { assert s[..2][0] == c; }
  }

  /** It leaves two characters alone that begin like it but go on otherwise. */
  lemma ReplacePair(a: char, b: char, rest: string, pattern: string, sub: string)
    requires |pattern| == 2 && a == pattern[0] && b != pattern[1] && b != pattern[0]
    ensures ReplaceAll([a, b] + rest, pattern, sub) == [a, b] + ReplaceAll(rest, pattern, sub)
  {
    var s := [a, b] + rest;
    assert s[..2][1] == b;
    assert s[1..] == [b] + rest;
    ReplaceChar(b, rest, pattern, sub);
    assert [a] + ([b] + ReplaceAll(rest, pattern, sub)) == [a, b] + ReplaceAll(rest, pattern, sub);
  }

  /** The encoding with only the tildes escaped: what the first half of unescaping leaves. */
  function Half(s: string): string {
    if s == "" then "" else (if s[0] == '~' then "~0" else [s[0]]) + Half(s[1..])
  }

  lemma {:induction false} FirstHalf(s: string)
    ensures ReplaceAll(Encode(s), "~1", "/") == Half(s)
  {
    hide ReplaceAll;
    if s == "" {
      ReplaceShort("", "~1", "/");
    } else {
      FirstHalf(s[1..]);
      var rest := Encode(s[1..]);
      if s[0] == '/' {
        ReplacePattern("~1", rest, "/");
      } else if s[0] == '~' {
        ReplacePair('~', '0', rest, "~1", "/");
      } else {
        ReplaceChar(s[0], rest, "~1", "/");
      }
    }
  }

  lemma {:induction false} SecondHalf(s: string)
    ensures ReplaceAll(Half(s), "~0", "~") == s
  {
    hide ReplaceAll;
    if s == "" {
      ReplaceShort("", "~0", "~");
    } else {
      SecondHalf(s[1..]);
      assert s == [s[0]] + s[1..];
      if s[0] == '~' {
        ReplacePattern("~0", Half(s[1..]), "~");
      } else {
        ReplaceChar(s[0], Half(s[1..]), "~0", "~");
      }
    }
  }

  lemma ReplaceShort(s: string, pattern: string, sub: string)
    requires |s| < |pattern|
    ensures ReplaceAll(s, pattern, sub) == s
  {
  }

  /** Unescaping undoes escaping, for every string. */
  lemma UnescapeEscape(s: string)
    ensures Unescape(Escape(s)) == s
  {
    hide ReplaceAll;
    EscapeEncodes(s);
    FirstHalf(s);
    SecondHalf(s);
  }

  lemma {:induction false} EncodeHasNoSlash(s: string)
    ensures '/' !in Encode(s)
  {
    if s != "" { EncodeHasNoSlash(s[1..]); }
  }

  // ----- numbers -----

  lemma {:induction false} DigitsParse(n: nat)
    ensures ParseDigits(Digits(n)) == Some(n)
    ensures Digits(n) != "" && (|Digits(n)| > 1 ==> Digits(n)[0] != '0')
  {
    DigitRoundTrip(n % 10);
    if n < 10 {
      assert Digits(n)[..0] == "";
      assert ParseDigits("") == Some(0);
    } else {
      DigitsParse(n / 10);
      var front := Digits(n / 10);
      assert Digits(n)[..|Digits(n)| - 1] == front;
      assert n == 10 * (n / 10) + n % 10;
      if |front| == 1 { assert n / 10 > 0; SingleDigit(n / 10); }
    }
  }

  lemma DigitRoundTrip(d: nat)
    requires d < 10
    ensures DigitValue(DigitChar(d)) == Some(d)
  {
  }

  lemma SingleDigit(n: nat)
    requires n > 0 && |Digits(n)| == 1
    ensures Digits(n)[0] != '0'
  {
    if n < 10 {
      DigitRoundTrip(n);
    } else {
      DigitsParse(n / 10);
    }
  }

  lemma IndexRoundTrip(n: nat)
    ensures ParseIndex(Digits(n)) == Some(n)
  {
    hide Digits, ParseDigits;
    DigitsParse(n);
  }

  // ----- paths -----

  lemma {:induction false} SplitAppend(a: string, b: string)
    requires '/' !in b
    ensures Split(a + "/" + b) == Split(a) + [b]
  {
    if a == "" {
      SplitPlain(b);
      assert a + "/" + b == "/" + b && ("/" + b)[1..] == b;
    } else {
      SplitAppend(a[1..], b);
      assert (a + "/" + b)[1..] == a[1..] + "/" + b;
    }
  }

  lemma {:induction false} SplitPlain(b: string)
    requires '/' !in b
    ensures Split(b) == [b]
  {
    if b != "" {
      SplitPlain(b[1..]);
      assert b == [b[0]] + b[1..];
    }
  }

  function Escaped(path: Path): (r: seq<string>)
    ensures |r| == |path| && forall i :: 0 <= i < |path| ==> r[i] == Escape(TokenText(path[i]))
  {
    seq(|path|, i requires 0 <= i < |path| => Escape(TokenText(path[i])))
  }

  lemma {:induction false} TokensOfPrint(path: Path)
    requires path != []
    ensures Print(path) != "" && Tokens(Print(path)) == Escaped(path)
  {
    hide Escape, Split;
    var n := |path| - 1;
    var text := Escape(TokenText(path[n]));
    EscapeEncodes(TokenText(path[n]));
    EncodeHasNoSlash(TokenText(path[n]));
    assert Escaped(path) == Escaped(path[..n]) + [text];
    if n == 0 {
      assert Print(path[..n]) == "";
      assert Print(path)[1..] == text;
      SplitPlain(text);
    } else {
      TokensOfPrint(path[..n]);
      var parent := Print(path[..n]);
      assert Print(path)[1..] == parent[1..] + "/" + text;
      SplitAppend(parent[1..], text);
    }
  }

  /** Evaluating a token's text takes the same step as the token. */
  lemma TokenStep(j: Json, t: Token)
    requires Position(j, t).Some?
    ensures StepInto(j, Unescape(Escape(TokenText(t)))) == Some(Child(j, Position(j, t).value))
  {
    hide Unescape, Escape, ParseIndex, Digits;
    UnescapeEscape(TokenText(t));
    if t.Index? { IndexRoundTrip(t.index); }
  }

  lemma {:induction false} WalkPath(j: Json, path: Path)
    requires Node(j, path).Some?
    ensures Walk(j, Escaped(path)) == Node(j, path)
    decreases |path|
  {
    hide Unescape, Escape, StepInto;
    if path != [] {
      TokenStep(j, path[0]);
      WalkPath(Child(j, Position(j, path[0]).value), path[1..]);
      assert Escaped(path)[1..] == Escaped(path[1..]);
    }
  }

  /**
   The pointer printed for the path of a node leads back to that node. The one path it fails for
   is the empty one: the empty pointer never yields the root, but the value of the key "" if any.
   */
  lemma PointerReachesNode(root: Json, path: Path)
    requires Node(root, path).Some?
    ensures PointerValue(root, Print(path)) == Node(root, path) <==> path != []
  {
    hide Walk, Tokens, Escape;
    if path != [] {
      TokensOfPrint(path);
      WalkPath(root, path);
    } else {
      EmptyPointer(root);
      var i := if root.Obj? then FindKey(root.fields, "") else None;
      if i.Some? { assert Child(root, i.value) < root; }
    }
  }

  lemma EmptyPointer(root: Json)
    ensures PointerValue(root, "") ==
      if root.Obj? && FindKey(root.fields, "").Some? then Some(root.fields[FindKey(root.fields, "").value].value) else None
  {
    hide ReplaceAll;
    ReplaceShort("", "~1", "/");
    ReplaceShort("", "~0", "~");
    assert [""][1..] == [];
    assert StepInto(root, "").Some? ==> Walk(StepInto(root, "").value, [""][1..]) == StepInto(root, "");
  }

  // ----- a pointer finds nothing else -----

  lemma DigitIs(c: char)
    requires DigitValue(c).Some?
    ensures DigitValue(c).value < 10 && DigitChar(DigitValue(c).value) == c
  {
  }

  /** Only the decimal form of a number is read as that number. */
  lemma {:induction false} ParsedIsDigits(s: string)
    requires s != "" && (|s| > 1 ==> s[0] != '0') && ParseDigits(s).Some?
    ensures s == Digits(ParseDigits(s).value)
    decreases |s|
  {
    var n := |s| - 1;
    var front, d := s[..n], DigitValue(s[n]).value;
    DigitIs(s[n]);
    assert s == front + [s[n]];
    if n == 0 {
      assert ParseDigits("") == Some(0);
    } else {
      ParsedIsDigits(front);
      var m := ParseDigits(front).value;
      assert Digits(0)[0] == '0';
      assert ParseDigits(s).value == 10 * m + d && (10 * m + d) / 10 == m && (10 * m + d) % 10 == d;
    }
  }

  lemma IndexIsDigits(s: string)
    requires ParseIndex(s).Some?
    ensures s == Digits(ParseIndex(s).value)
  {
    hide ParseDigits, Digits;
    ParsedIsDigits(s);
  }

  /** The path spells these tokens. */
  ghost predicate Spells(path: Path, tokens: seq<string>) {
    |path| == |tokens| && forall i :: 0 <= i < |path| ==> TokenText(path[i]) == Unescape(tokens[i])
  }

  lemma {:induction false} WalkFinds(j: Json, tokens: seq<string>) returns (path: Path)
    requires Walk(j, tokens).Some?
    ensures Spells(path, tokens) && Node(j, path) == Walk(j, tokens)
    decreases |tokens|
  {
    hide Unescape, ParseIndex, Digits;
    if tokens == [] {
      path := [];
    } else {
      var token := Unescape(tokens[0]);
      var t := if j.Arr? then Index(ParseIndex(token).value) else Key(token);
      if j.Arr? { IndexIsDigits(token); }
      assert StepInto(j, token) == Some(Child(j, Position(j, t).value));
      var rest := WalkFinds(StepInto(j, token).value, tokens[1..]);
      path := [t] + rest;
      assert path[1..] == rest;
    }
  }

  lemma {:induction false} SpelledWalks(j: Json, path: Path, tokens: seq<string>)
    requires Spells(path, tokens) && Node(j, path).Some?
    ensures Walk(j, tokens) == Node(j, path)
    decreases |path|
  {
    hide Unescape, ParseIndex, Digits;
    if path != [] {
      var t := path[0];
      if t.Index? { IndexRoundTrip(t.index); }
      assert StepInto(j, Unescape(tokens[0])) == Some(Child(j, Position(j, t).value));
      SpelledWalks(Child(j, Position(j, t).value), path[1..], tokens[1..]);
    }
  }

  /**
   Whatever string a placeholder holds: it evaluates to a value exactly when its unescaped tokens spell the
   path of a node, keys by name and indexes in plain decimal form, and then to that node; so an index with
   a leading zero, a sign or a dash finds nothing.
   */
  lemma PointerFindsNodes(root: Json, pointer: string, v: Json)
    ensures PointerValue(root, pointer) == Some(v) <==>
      exists path :: Spells(path, Tokens(pointer)) && Node(root, path) == Some(v)
  {
    hide Walk, Tokens, Spells;
    if PointerValue(root, pointer) == Some(v) { var path := WalkFinds(root, Tokens(pointer)); }
    if path :| Spells(path, Tokens(pointer)) && Node(root, path) == Some(v) { SpelledWalks(root, path, Tokens(pointer)); }
  }
}
