/**
 JSON values, and JSON Pointers as the fixture tools print them and the replay evaluates them.
 */
module JsonModel {
  import opened Wrappers

  datatype Field = Field(key: string, value: Json)

  datatype Json = Null | Bool(flag: bool) | Num(number: real) | Str(text: string)
                | Arr(items: seq<Json>) | Obj(fields: seq<Field>)

  datatype Token = Key(key: string) | Index(index: nat)

  type Path = seq<Token>

  // ----- children -----

  function Width(j: Json): nat {
    if j.Arr? then |j.items| else if j.Obj? then |j.fields| else 0
  }

  function Child(j: Json, i: nat): (r: Json)
    requires i < Width(j)
    ensures r < j
  {
    if j.Arr? then j.items[i] else j.fields[i].value
  }

  function TokenAt(j: Json, i: nat): Token
    requires i < Width(j)
  {
    if j.Arr? then Index(i) else Key(j.fields[i].key)
  }

  /** The container with other children in place of its own. */
  function WithChildren(j: Json, children: seq<Json>): (r: Json)
    requires |children| == Width(j)
    ensures Width(r) == Width(j)
    ensures forall i :: 0 <= i < Width(j) ==> Child(r, i) == children[i] && TokenAt(r, i) == TokenAt(j, i)
  {
    if j.Arr? then Arr(children)
    else if j.Obj? then Obj(seq(|children|, i requires 0 <= i < |children| => Field(j.fields[i].key, children[i])))
    else j
  }

  function FindKey(fields: seq<Field>, key: string): (r: Option<nat>)
    ensures r.Some? ==> r.value < |fields| && fields[r.value].key == key
    ensures r.None? ==> forall i :: 0 <= i < |fields| ==> fields[i].key != key
  {
    if fields == [] then None
    else if fields[0].key == key then Some(0)
    else
      var r := FindKey(fields[1..], key);
      if r.Some? then Some(r.value + 1) else None
  }

  /** Objects hold every key once, as JavaScript objects do. */
  predicate Valid(j: Json) {
    && (j.Obj? ==> forall i, k :: 0 <= i < k < |j.fields| ==> j.fields[i].key != j.fields[k].key)
    && (forall i :: 0 <= i < Width(j) ==> Valid(Child(j, i)))
  }

  /** The position of the child a token leads to. */
  function Position(j: Json, t: Token): (r: Option<nat>)
    ensures r.Some? ==> r.value < Width(j)
  {
    if j.Arr? && t.Index? && t.index < |j.items| then Some(t.index)
    else if j.Obj? && t.Key? then FindKey(j.fields, t.key)
    else None
  }

  /** The node of a path of typed tokens. */
  function Node(j: Json, path: Path): Option<Json>
    decreases |path|
  {
    if path == [] then Some(j)
    else
      var i := Position(j, path[0]);
      if i.None? then None else Node(Child(j, i.value), path[1..])
  }

  // ----- strings -----

  /** `replaceAll` of a non-empty pattern: leftmost, non-overlapping. */
  function ReplaceAll(s: string, pattern: string, sub: string): string
    requires pattern != ""
    decreases |s|
  {
    if |s| < |pattern| then s
    else if s[..|pattern|] == pattern then sub + ReplaceAll(s[|pattern|..], pattern, sub)
    else [s[0]] + ReplaceAll(s[1..], pattern, sub)
  }

  function Escape(s: string): string {
    ReplaceAll(ReplaceAll(s, "~", "~0"), "/", "~1")
  }

  function Unescape(s: string): string {
    ReplaceAll(ReplaceAll(s, "~1", "/"), "~0", "~")
  }

  /** `split("/")`. */
  function Split(s: string): (r: seq<string>)
    ensures r != []
  {
    if s == "" then [""]
    else if s[0] == '/' then [""] + Split(s[1..])
    else [[s[0]] + Split(s[1..])[0]] + Split(s[1..])[1..]
  }

  /** `String(n)` of a natural number. */
  function Digits(n: nat): string {
    if n < 10 then [DigitChar(n)] else Digits(n / 10) + [DigitChar(n % 10)]
  }

  function DigitChar(d: nat): char
    requires d < 10
  {
    "0123456789"[d]
  }

  function DigitValue(c: char): Option<nat> {
    if '0' <= c <= '9' then Some((c as int) - ('0' as int)) else None
  }

  /** The value of a token that matches `0|[1-9]\d*`. */
  function ParseIndex(s: string): Option<nat> {
    if s == "" || (|s| > 1 && s[0] == '0') then None else ParseDigits(s)
  }

  function ParseDigits(s: string): Option<nat> {
    if s == "" then Some(0)
    else
      var last := DigitValue(s[|s| - 1]);
      var front := ParseDigits(s[..|s| - 1]);
      if last.Some? && front.Some? then Some(10 * front.value + last.value) else None
  }

  // ----- pointers -----

  function TokenText(t: Token): string {
    if t.Key? then t.key else Digits(t.index)
  }

  /** `pointer(parent, key)`. */
  function Extend(parent: string, t: Token): string {
    parent + "/" + Escape(TokenText(t))
  }

  function Print(path: Path): string {
    if path == [] then "" else Extend(Print(path[..|path| - 1]), path[|path| - 1])
  }

  /** The child an unescaped token leads to, or none. */
  function StepInto(j: Json, token: string): Option<Json> {
    if j.Arr? then
      var index := ParseIndex(token);
      if index.Some? && index.value < |j.items| then Some(j.items[index.value]) else None
    else if j.Obj? then
      var i := FindKey(j.fields, token);
      if i.Some? then Some(j.fields[i.value].value) else None
    else None
  }

  function Walk(j: Json, tokens: seq<string>): Option<Json>
    decreases |tokens|
  {
    if tokens == [] then Some(j)
    else
      var next := StepInto(j, Unescape(tokens[0]));
      if next.None? then None else Walk(next.value, tokens[1..])
  }

  /** `pointer.slice(1).split("/")`. */
  function Tokens(pointer: string): seq<string> {
    Split(if pointer == "" then "" else pointer[1..])
  }

  /** `pointerValue`; None stands for the INVALID_PLACEHOLDER error. */
  function PointerValue(root: Json, pointer: string): Option<Json> {
    Walk(root, Tokens(pointer))
  }
}
