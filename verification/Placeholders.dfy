/**
 Filling the live placeholders of a recorded fixture, with the bindings kept across values.
 */
module Placeholders {
  import opened Wrappers
  import opened JsonModel
  import Pointers = JsonPointer

  const LIVE := "{{live:"

  predicate LineBreak(c: char) {
    c == '\n' || c == '\r' || c == '\U{2028}' || c == '\U{2029}'
  }

  /** The pointer of a string that is a placeholder as a whole: it starts with a slash and stays on one line. */
  function Placeholder(s: string): (r: Option<string>)
    ensures r.Some? ==> r.value != ""
  {
    if |s| >= |LIVE| + 3 && LIVE <= s && s[|LIVE|] == '/' && s[|s| - 2..] == "}}" &&
       (forall i :: |LIVE| <= i < |s| - 2 ==> !LineBreak(s[i]))
    then Some(s[|LIVE|..|s| - 2])
    else None
  }

  type Bindings = map<string, Json>

  /** A value, or the items of a container, filled so far; `Dangling` is the error of a missing pointer. */
  datatype Filled = Dangling | Filled(value: Json, made: Bindings)

  datatype Items = DanglingItem | Items(values: seq<Json>, made: Bindings)

  /** `materializePlaceholders`. */
  function Materialize(j: Json, live: Json, b: Bindings): Filled
    decreases j, Width(j) + 1
  {
    if j.Str? then
      if Placeholder(j.text).None? then Filled(j, b)
      else if j.text in b then Filled(b[j.text], b)
      else
        var resolved := PointerValue(live, Placeholder(j.text).value);
        if resolved.None? then Dangling else Filled(resolved.value, b[j.text := resolved.value])
    else
      var r := MaterializeChildren(j, live, b, Width(j));
      if r.DanglingItem? then Dangling else Filled(WithChildren(j, r.values), r.made)
  }

  function MaterializeChildren(j: Json, live: Json, b: Bindings, n: nat): (r: Items)
    requires n <= Width(j)
    ensures r.Items? ==> |r.values| == n
    decreases j, n
  {
    if n == 0 then Items([], b)
    else
      var before := MaterializeChildren(j, live, b, n - 1);
      if before.DanglingItem? then DanglingItem
      else
        var child := Materialize(Child(j, n - 1), live, before.made);
        if child.Dangling? then DanglingItem else Items(before.values + [child.value], child.made)
  }

  // ----- the simple form -----

  /** Plain substitution of every bound placeholder, without looking anything up on the way. */
  function Fill(j: Json, b: Bindings): Json
    decreases j
  {
    if j.Str? then (if Placeholder(j.text).Some? && j.text in b then b[j.text] else j)
    else WithChildren(j, seq(Width(j), i requires 0 <= i < Width(j) => Fill(Child(j, i), b)))
  }

  /** Every placeholder of the value is bound or names a node of the live request. */
  predicate Fillable(j: Json, live: Json, b: Bindings)
    decreases j
  {
    if j.Str? then Placeholder(j.text).None? || j.text in b || PointerValue(live, Placeholder(j.text).value).Some?
    else forall i :: 0 <= i < Width(j) ==> Fillable(Child(j, i), live, b)
  }

  /** The placeholders of the value all have a binding. */
  predicate Bound(j: Json, b: Bindings)
    decreases j
  {
    if j.Str? then Placeholder(j.text).None? || j.text in b
    else forall i :: 0 <= i < Width(j) ==> Bound(Child(j, i), b)
  }

  /** Old bindings stay, new ones hold the live value of their pointer. */
  ghost predicate Grows(b: Bindings, c: Bindings, live: Json) {
    && (forall k :: k in b ==> k in c && c[k] == b[k])
    && (forall k :: k in c && k !in b ==> Placeholder(k).Some? && PointerValue(live, Placeholder(k).value) == Some(c[k]))
  }

  lemma GrowsSelf(b: Bindings, live: Json)
    ensures Grows(b, b, live)
  {
  }

  lemma GrowsTransitive(a: Bindings, b: Bindings, c: Bindings, live: Json)
    requires Grows(a, b, live) && Grows(b, c, live)
    ensures Grows(a, c, live)
  {
    hide Placeholder, PointerValue;
  }

  /** Bindings that only add live values do not change which values can be filled. */
  lemma {:induction false} FillableGrows(j: Json, live: Json, b: Bindings, c: Bindings)
    requires Grows(b, c, live)
    ensures Fillable(j, live, b) <==> Fillable(j, live, c)
    decreases j
  {
    hide Placeholder, PointerValue;
    if !j.Str? {
      forall i | 0 <= i < Width(j) ensures Fillable(Child(j, i), live, b) <==> Fillable(Child(j, i), live, c) {
        FillableGrows(Child(j, i), live, b, c);
      }
    }
  }

  lemma {:induction false} BoundGrows(j: Json, live: Json, b: Bindings, c: Bindings)
    requires Bound(j, b) && Grows(b, c, live)
    ensures Bound(j, c) && Fill(j, c) == Fill(j, b)
    decreases j
  {
    hide Placeholder, PointerValue;
    if !j.Str? {
      forall i | 0 <= i < Width(j) ensures Bound(Child(j, i), c) && Fill(Child(j, i), c) == Fill(Child(j, i), b) {
        assert Bound(Child(j, i), b);
        BoundGrows(Child(j, i), live, b, c);
      }
      FillSame(j, b, c);
    }
  }

  lemma FillSame(j: Json, b: Bindings, c: Bindings)
    requires !j.Str? && forall i :: 0 <= i < Width(j) ==> Fill(Child(j, i), c) == Fill(Child(j, i), b)
    ensures Fill(j, c) == Fill(j, b)
  {
    var x := seq(Width(j), i requires 0 <= i < Width(j) => Fill(Child(j, i), b));
    var y := seq(Width(j), i requires 0 <= i < Width(j) => Fill(Child(j, i), c));
    assert x == y;
  }

  /** The outcome of the memoised form on one value. */
  ghost predicate Refines(j: Json, live: Json, b: Bindings, r: Filled) {
    && (r.Filled? <==> Fillable(j, live, b))
    && (r.Filled? ==> Grows(b, r.made, live) && Bound(j, r.made) && r.value == Fill(j, r.made))
  }

  ghost predicate ChildrenRefine(j: Json, live: Json, b: Bindings, n: nat, r: Items)
    requires n <= Width(j)
  {
    && (r.Items? <==> forall i :: 0 <= i < n ==> Fillable(Child(j, i), live, b))
    && (r.Items? ==>
          && Grows(b, r.made, live) && |r.values| == n
          && forall i :: 0 <= i < n ==> Bound(Child(j, i), r.made) && r.values[i] == Fill(Child(j, i), r.made))
  }

  /** One more item after items that already refine the simple form. */
  lemma ItemsStep(j: Json, live: Json, b: Bindings, n: nat, before: Items, child: Filled)
    requires n < Width(j) && before.Items? && ChildrenRefine(j, live, b, n, before)
    requires Refines(Child(j, n), live, before.made, child) && child.Filled?
    ensures ChildrenRefine(j, live, b, n + 1, Items(before.values + [child.value], child.made))
  {
    hide Fill, Bound, Fillable, Grows, Child;
    FillableGrows(Child(j, n), live, b, before.made);
    GrowsTransitive(b, before.made, child.made, live);
    forall i | 0 <= i < n ensures Bound(Child(j, i), child.made) && before.values[i] == Fill(Child(j, i), child.made) {
      BoundGrows(Child(j, i), live, before.made, child.made);
    }
  }

  lemma DanglingStep(j: Json, live: Json, b: Bindings, n: nat, before: Items)
    requires n < Width(j) && ChildrenRefine(j, live, b, n, before)
    requires before.Items? ==> Refines(Child(j, n), live, before.made, Dangling)
    ensures ChildrenRefine(j, live, b, n + 1, DanglingItem)
  {
    hide Fill, Bound, Fillable, Grows, Child;
    if before.Items? { FillableGrows(Child(j, n), live, b, before.made); }
  }

  lemma {:induction false} ChildrenMaterialize(j: Json, live: Json, b: Bindings, n: nat)
    requires n <= Width(j)
    ensures ChildrenRefine(j, live, b, n, MaterializeChildren(j, live, b, n))
    decreases j, n
  {
    hide Materialize, Grows, ChildrenRefine, Refines, Width;
    if n == 0 {
      NoItems(j, live, b);
    } else {
      ChildrenMaterialize(j, live, b, n - 1);
      var before := MaterializeChildren(j, live, b, n - 1);
      if before.Items? { MaterializeRefinesFill(Child(j, n - 1), live, before.made); }
      if before.Items? && Materialize(Child(j, n - 1), live, before.made).Filled? {
        ItemsStep(j, live, b, n - 1, before, Materialize(Child(j, n - 1), live, before.made));
      } else {
        DanglingStep(j, live, b, n - 1, before);
      }
    }
  }

  lemma NoItems(j: Json, live: Json, b: Bindings)
    ensures ChildrenRefine(j, live, b, 0, Items([], b))
  {
    hide Grows;
    GrowsSelf(b, live);
  }

  /**
   Filling with memoised bindings is plain substitution under the final bindings: bindings already
   made are kept, new ones hold the live value of their pointer, and it fails exactly when some
   unbound placeholder points at nothing.
   */
  lemma {:induction false} MaterializeRefinesFill(j: Json, live: Json, b: Bindings)
    ensures Refines(j, live, b, Materialize(j, live, b))
    decreases j, Width(j) + 1
  {
    hide Placeholder, PointerValue, MaterializeChildren;
    if !j.Str? {
      ChildrenMaterialize(j, live, b, Width(j));
      var r := MaterializeChildren(j, live, b, Width(j));
      if r.Items? { FillIs(j, r.values, r.made); }
    }
  }

  lemma FillIs(j: Json, children: seq<Json>, b: Bindings)
    requires !j.Str? && |children| == Width(j) && forall i :: 0 <= i < Width(j) ==> children[i] == Fill(Child(j, i), b)
    ensures Fill(j, b) == WithChildren(j, children)
  {
    assert children == seq(Width(j), i requires 0 <= i < Width(j) => Fill(Child(j, i), b));
  }

  /** The placeholder a fixture writer puts in for a node of the live request. */
  function PlaceholderText(path: Path): string {
    LIVE + Print(path) + "}}"
  }

  /** A placeholder for a node is filled with that node, unless its pointer breaks the line. */
  lemma PlaceholderRoundTrip(live: Json, path: Path)
    requires path != [] && Node(live, path).Some?
    ensures var r := Materialize(Str(PlaceholderText(path)), live, map[]);
      if forall c :: c in Print(path) ==> !LineBreak(c) then r.Filled? && Some(r.value) == Node(live, path)
      else r == Filled(Str(PlaceholderText(path)), map[])
  {
    hide PointerValue, Node, LineBreak;
    Pointers.PointerReachesNode(live, path);
    PrintStarts(path);
    ParsesBack(Print(path));
  }

  lemma {:induction false} PrintStarts(path: Path)
    requires path != []
    ensures Print(path) != "" && Print(path)[0] == '/'
  {
    hide Escape;
    if |path| > 1 { PrintStarts(path[..|path| - 1]); }
  }

  lemma ParsesBack(pointer: string)
    requires pointer != "" && pointer[0] == '/'
    ensures Placeholder(LIVE + pointer + "}}") ==
      if forall c :: c in pointer ==> !LineBreak(c) then Some(pointer) else None
  {
    hide LineBreak;
    var s := LIVE + pointer + "}}";
    var n := |LIVE|;
    assert s[n..|s| - 2] == pointer && s[|s| - 2..] == "}}" && s[..n] == LIVE;
    if c :| c in pointer && LineBreak(c) {
      var i :| 0 <= i < |pointer| && pointer[i] == c;
      assert s[n + i] == c;
    } else {
      forall i | n <= i < |s| - 2 ensures !LineBreak(s[i]) { assert s[i] == pointer[i - n]; }
    }
  }

  /** The adapter's bindings, filled as values are materialized. */
  class ReplayBindings {
    var bindings: Bindings

    constructor ()
      ensures bindings == map[]
    {
      bindings := map[];
    }

    /** A failed call may leave bindings behind that it made before it met the missing pointer. */
    method MaterializePlaceholders(value: Json, live: Json) returns (r: Option<Json>)
      modifies this
      ensures r.None? <==> Materialize(value, live, old(bindings)).Dangling?
      ensures r.Some? ==> Materialize(value, live, old(bindings)) == Filled(r.value, bindings)
      ensures Grows(old(bindings), bindings, live)
      decreases value
    {
      hide Placeholder, PointerValue;
      if value.Str? {
        var placeholder := Placeholder(value.text);
        if placeholder.None? { return Some(value); }
        if value.text in bindings { return Some(bindings[value.text]); }
        var resolved := PointerValue(live, placeholder.value);
        if resolved.None? { return None; }
        bindings := bindings[value.text := resolved.value];
        return resolved;
      }
      var children := [];
      var i := 0;
      while i < Width(value)
        invariant i <= Width(value)
        invariant MaterializeChildren(value, live, old(bindings), i) == Items(children, bindings)
        invariant Grows(old(bindings), bindings, live)
      {
        ghost var before := bindings;
        var child := MaterializePlaceholders(Child(value, i), live);
        GrowsTransitive(old(bindings), before, bindings, live);
        if child.None? {
          ChildrenFail(value, live, old(bindings), i + 1);
          return None;
        }
        children := children + [child.value];
        i := i + 1;
      }
      return Some(WithChildren(value, children));
    }
  }

  /** A child that fails makes the whole value fail. */
  lemma {:induction false} ChildrenFail(j: Json, live: Json, b: Bindings, n: nat)
    requires n <= Width(j) && MaterializeChildren(j, live, b, n).DanglingItem?
    ensures MaterializeChildren(j, live, b, Width(j)).DanglingItem?
    decreases Width(j) - n
  {
    hide Materialize;
    if n < Width(j) { ChildrenFail(j, live, b, n + 1); }
  }
}
