/**
 Sanitizing a fixture: replaced strings and fields, and the review that lists them.
 */
module SanitizeModel {
  import opened Wrappers
  import opened JsonModel

  datatype Kind = Credential | AbsolutePath

  datatype Review = Review(path: Path, kind: Kind)

  /** A global regular expression by what it matches and what replacing its matches yields. */
  datatype Pattern = Pattern(test: string -> bool, replace: string -> string, kind: Kind)

  /** The credential patterns, the path patterns after them, and the credential field names. */
  datatype Rules = Rules(patterns: seq<Pattern>, credentialKey: string -> bool)

  const CREDENTIAL := Str("{{CREDENTIAL}}")

  datatype Cleaned = Cleaned(value: Json, reviews: seq<Review>)

  datatype CleanedText = CleanedText(text: string, reviews: seq<Review>)

  datatype CleanedItems = CleanedItems(values: seq<Json>, reviews: seq<Review>)

  /** `replaceString`: each pattern in turn, on what the ones before it left. */
  function ReplaceString(patterns: seq<Pattern>, text: string, path: Path): CleanedText {
    if patterns == [] then CleanedText(text, [])
    else
      var p := patterns[0];
      if p.test(text) then
        var rest := ReplaceString(patterns[1..], p.replace(text), path);
        CleanedText(rest.text, [Review(path, p.kind)] + rest.reviews)
      else ReplaceString(patterns[1..], text, path)
  }

  /** A field whose whole value is replaced because of its name. */
  predicate Redacts(rules: Rules, j: Json, i: nat)
    requires i < Width(j)
  {
    j.Obj? && rules.credentialKey(j.fields[i].key) && Child(j, i) != Null && Child(j, i) != Str("")
  }

  /** `sanitizeValue`. */
  function Sanitize(rules: Rules, j: Json, path: Path): (r: Cleaned)
    ensures Width(r.value) == Width(j)
    decreases j, Width(j) + 1
  {
    if j.Str? then
      var r := ReplaceString(rules.patterns, j.text, path);
      Cleaned(Str(r.text), r.reviews)
    else
      var r := SanitizeChildren(rules, j, path, Width(j));
      Cleaned(WithChildren(j, r.values), r.reviews)
  }

  function SanitizeChild(rules: Rules, j: Json, path: Path, i: nat): Cleaned
    requires i < Width(j)
    decreases j, i, 0
  {
    var childPath := path + [TokenAt(j, i)];
    if Redacts(rules, j, i) then Cleaned(CREDENTIAL, [Review(childPath, Credential)])
    else Sanitize(rules, Child(j, i), childPath)
  }

  /** The first `n` children, in order. */
  function SanitizeChildren(rules: Rules, j: Json, path: Path, n: nat): (r: CleanedItems)
    requires n <= Width(j)
    ensures |r.values| == n
    decreases j, n
  {
    if n == 0 then CleanedItems([], [])
    else
      var before := SanitizeChildren(rules, j, path, n - 1);
      var child := SanitizeChild(rules, j, path, n - 1);
      CleanedItems(before.values + [child.value], before.reviews + child.reviews)
  }
}
