/**
 Every reported issue names a fault of the node at its path, and every such fault is reported.
 */
module SchemaFaults {
  import opened Wrappers
  import opened JsonModel
  import opened SchemaModel
  import opened SchemaSafety

  // ----- what is wrong with a node itself -----

  /** No choice to make, and the value is one of those allowed. */
  predicate Plain(s: Schema, j: Json) {
    && s.anyOf.Absent?
    && (s.enumeration.Some? ==> j in s.enumeration.value)
    && (s.constant.Some? ==> j == s.constant.value)
  }

  predicate OfKind(kind: string, j: Json) {
    && (kind == "null" ==> j.Null?)
    && (kind == "string" ==> j.Str?)
    && (kind == "number" ==> j.Num?)
    && (kind == "integer" ==> j.Num? && IsInteger(j.number))
    && (kind == "boolean" ==> j.Bool?)
    && (kind == "array" ==> j.Arr?)
    && (kind == "object" ==> j.Obj?)
  }

  predicate Below(bound: Option<real>, value: real) {
    bound.Some? && value < bound.value
  }

  predicate Above(bound: Option<real>, value: real) {
    bound.Some? && value > bound.value
  }

  predicate Fewer(bound: Option<nat>, size: nat) {
    bound.Some? && size < bound.value
  }

  predicate More(bound: Option<nat>, size: nat) {
    bound.Some? && size > bound.value
  }

  predicate IsNumber(kind: string) {
    kind == "number" || kind == "integer"
  }

  /** The node has this fault; of several the first is named, choices before values before types before bounds. */
  predicate Fault(s: Schema, j: Json, problem: Problem) {
    match problem
    case NoShape => s.anyOf.AnyOf? && forall i :: 0 <= i < |s.anyOf.options| ==> !Accepts(s.anyOf.options[i], j)
    case NotInEnum => s.anyOf.Absent? && s.enumeration.Some? && j !in s.enumeration.value
    case NotConst =>
      && s.anyOf.Absent? && (s.enumeration.Some? ==> j in s.enumeration.value)
      && s.constant.Some? && j != s.constant.value
    case WrongType => Plain(s, j) && !OfKind(s.kind, j)
    case TooShort => Plain(s, j) && s.kind == "string" && j.Str? && Fewer(s.minLength, |j.text|)
    case TooLong =>
      Plain(s, j) && s.kind == "string" && j.Str? && !Fewer(s.minLength, |j.text|) && More(s.maxLength, |j.text|)
    case TooSmall => Plain(s, j) && IsNumber(s.kind) && OfKind(s.kind, j) && j.Num? && Below(s.minimum, j.number)
    case TooLarge =>
      && Plain(s, j) && IsNumber(s.kind) && OfKind(s.kind, j) && j.Num? && !Below(s.minimum, j.number)
      && Above(s.maximum, j.number)
    case TooFewItems => Plain(s, j) && s.kind == "array" && j.Arr? && Fewer(s.minItems, |j.items|)
    case TooManyItems =>
      Plain(s, j) && s.kind == "array" && j.Arr? && !Fewer(s.minItems, |j.items|) && More(s.maxItems, |j.items|)
    case _ => false
  }

  // ----- where the children are looked at -----

  /** The items or the fields of the node are validated. */
  predicate GoesInto(s: Schema, j: Json) {
    Plain(s, j) &&
    ((s.kind == "array" && j.Arr? && s.items.Some? && !Fewer(s.minItems, |j.items|) && !More(s.maxItems, |j.items|))
     || (s.kind == "object" && j.Obj?))
  }

  /** The schema of a child, if it has one. */
  function ChildSchema(s: Schema, j: Json, i: nat): (r: Option<Schema>)
    requires GoesInto(s, j) && i < Width(j)
    ensures r.Some? ==> r.value < s
  {
    if j.Arr? then s.items
    else if j.fields[i].key in s.properties then Some(s.properties[j.fields[i].key])
    else if s.additional.Each? then Some(s.additional.schema)
    else None
  }

  /** The object lacks a required key, or has one that is not allowed. */
  predicate KeyFault(s: Schema, j: Json, key: string, problem: Problem) {
    s.kind == "object" && j.Obj? &&
    match problem
    case Missing => key in s.required && Get(j, key).None?
    case NotAllowed => Get(j, key).Some? && key !in s.properties && s.additional.Nothing?
    case _ => false
  }

  /** The node at the path has the fault, by the schema that governs it. */
  predicate FaultAt(s: Schema, j: Json, p: Path, problem: Problem)
    decreases |p|
  {
    if p == [] then Fault(s, j, problem)
    else
      GoesInto(s, j) &&
      ((|p| == 1 && p[0].Key? && KeyFault(s, j, p[0].key, problem))
       || (Position(j, p[0]).Some? && ChildSchema(s, j, Position(j, p[0]).value).Some?
           && FaultAt(ChildSchema(s, j, Position(j, p[0]).value).value, Child(j, Position(j, p[0]).value), p[1..], problem)))
  }

  // ----- the reported issues -----

  lemma {:induction false} ItemsEntries(s: Schema, items: seq<Json>, path: Path, n: nat, e: Issue)
    requires s.items.Some? && n <= |items|
    ensures e in ValidateItems(s, items, path, n) <==>
      exists i :: 0 <= i < n && e in Validate(s.items.value, items[i], path + [Index(i)])
  {
    hide Validate;
    if n > 0 { ItemsEntries(s, items, path, n - 1, e); }
  }

  /** What the validator reports for one field. */
  function FieldIssues(s: Schema, f: Field, path: Path): seq<Issue> {
    if f.key in s.properties then Validate(s.properties[f.key], f.value, path + [Key(f.key)])
    else if s.additional.Nothing? then One(path + [Key(f.key)], NotAllowed)
    else if s.additional.Each? then Validate(s.additional.schema, f.value, path + [Key(f.key)])
    else []
  }

  lemma {:induction false} FieldsEntries(s: Schema, fields: seq<Field>, path: Path, n: nat, e: Issue)
    requires n <= |fields|
    ensures e in ValidateFields(s, fields, path, n) <==> exists i :: 0 <= i < n && e in FieldIssues(s, fields[i], path)
  {
    hide Validate;
    if n > 0 { FieldsEntries(s, fields, path, n - 1, e); }
  }

  lemma {:induction false} MissingEntries(required: seq<string>, j: Json, path: Path, e: Issue)
    ensures e in MissingKeys(required, j, path) <==>
      e.problem == Missing && exists k :: k in required && Get(j, k).None? && e.path == path + [Key(k)]
  {
    hide Get;
    if required != [] {
      MissingEntries(required[1..], j, path, e);
      assert required == [required[0]] + required[1..];
      assert required[0] in required;
    }
  }

  /** The issues of a container are those of its keys and of its children. */
  lemma ContainerEntries(s: Schema, j: Json, path: Path, e: Issue)
    requires GoesInto(s, j)
    ensures j.Arr? ==> (e in Validate(s, j, path) <==>
      exists i :: 0 <= i < |j.items| && e in Validate(s.items.value, j.items[i], path + [Index(i)]))
    ensures j.Obj? ==> (e in Validate(s, j, path) <==>
      || (e.problem == Missing && exists k :: k in s.required && Get(j, k).None? && e.path == path + [Key(k)])
      || exists i :: 0 <= i < |j.fields| && e in FieldIssues(s, j.fields[i], path))
  {
    hide ValidateItems, ValidateFields, MissingKeys, Get, FieldIssues;
    if j.Arr? {
      ItemsEntries(s, j.items, path, |j.items|, e);
    } else {
      FieldsEntries(s, j.fields, path, |j.fields|, e);
      MissingEntries(s.required, j, path, e);
    }
  }

  lemma LocalEntries(s: Schema, j: Json, path: Path, e: Issue)
    requires !GoesInto(s, j)
    ensures e in Validate(s, j, path) <==> e.path == path && Fault(s, j, e.problem)
  {
    hide ValidateItems, ValidateFields, MissingKeys, Accepts;
    if s.anyOf.AnyOf? {
      forall i | 0 <= i < |s.anyOf.options| ensures Validate(s.anyOf.options[i], j, path) == [] <==> Accepts(s.anyOf.options[i], j) {
        ValidateIffAccepts(s.anyOf.options[i], j, path);
      }
    }
  }

  lemma NoLocalFault(s: Schema, j: Json, problem: Problem)
    requires GoesInto(s, j)
    ensures !Fault(s, j, problem)
  {
  }

  /** Issues lie at or below the path they are asked for. */
  lemma {:induction false} EntriesBelow(s: Schema, j: Json, path: Path, e: Issue)
    requires e in Validate(s, j, path)
    ensures path <= e.path && (GoesInto(s, j) ==> |path| < |e.path|)
    decreases s
  {
    hide Validate, Fault, Get;
    if !GoesInto(s, j) {
      LocalEntries(s, j, path, e);
    } else {
      ContainerEntries(s, j, path, e);
      if j.Arr? {
        var i :| 0 <= i < |j.items| && e in Validate(s.items.value, j.items[i], path + [Index(i)]);
        EntriesBelow(s.items.value, j.items[i], path + [Index(i)], e);
        Longer(path, Index(i), e.path);
      } else if k :| e.problem == Missing && k in s.required && Get(j, k).None? && e.path == path + [Key(k)] {
      } else {
        var i :| 0 <= i < |j.fields| && e in FieldIssues(s, j.fields[i], path);
        FieldBelow(s, j.fields[i], path, e);
      }
    }
  }

  lemma Longer(path: Path, t: Token, whole: Path)
    requires path + [t] <= whole
    ensures path <= whole && |path| < |whole| && whole[|path|] == t
  {
    assert (path + [t])[|path|] == whole[|path|];
    assert forall i :: 0 <= i < |path| ==> (path + [t])[i] == whole[i];
  }

  lemma FieldBelow(s: Schema, f: Field, path: Path, e: Issue)
    requires e in FieldIssues(s, f, path)
    ensures path <= e.path && |path| < |e.path| && e.path[|path|] == Key(f.key)
    decreases s, 0
  {
    hide Validate;
    if f.key in s.properties { EntriesBelow(s.properties[f.key], f.value, path + [Key(f.key)], e); }
    else if s.additional.Each? { EntriesBelow(s.additional.schema, f.value, path + [Key(f.key)], e); }
    Longer(path, Key(f.key), e.path);
  }

  /** A key leads to the one field that has it. */
  lemma KeyLeads(j: Json, i: nat)
    requires Valid(j) && j.Obj? && i < |j.fields|
    ensures Position(j, Key(j.fields[i].key)) == Some(i) && Get(j, j.fields[i].key) == Some(j.fields[i].value)
  {
    hide FindKey;
    var k := FindKey(j.fields, j.fields[i].key);
    assert k.Some?;
  }

  lemma {:induction false} IssuesAreFaults(s: Schema, j: Json, base: Path, p: Path, problem: Problem)
    requires Valid(j)
    ensures Issue(base + p, problem) in Validate(s, j, base) <==> FaultAt(s, j, p, problem)
    decreases |p|
  {
    hide Validate, Fault, Get, Valid, FieldIssues, KeyFault, Position;
    var e := Issue(base + p, problem);
    if !GoesInto(s, j) {
      LocalEntries(s, j, base, e);
      assert base + p == base <==> p == [];
    } else if p == [] {
      NoLocalFault(s, j, problem);
      if e in Validate(s, j, base) { EntriesBelow(s, j, base, e); }
    } else {
      ContainerEntries(s, j, base, e);
      assert (base + p)[|base|] == p[0];
      if j.Arr? { ItemIssues(s, j, base, p, problem); } else { KeyIssues(s, j, base, p, problem); }
    }
  }

  lemma ItemIssues(s: Schema, j: Json, base: Path, p: Path, problem: Problem)
    requires Valid(j) && GoesInto(s, j) && j.Arr? && p != []
    ensures (exists i :: 0 <= i < |j.items| && Issue(base + p, problem) in Validate(s.items.value, j.items[i], base + [Index(i)])) <==>
      FaultAt(s, j, p, problem)
    decreases |p|, 0
  {
    hide Validate, Fault, Get, Valid;
    var e := Issue(base + p, problem);
    if i :| 0 <= i < |j.items| && e in Validate(s.items.value, j.items[i], base + [Index(i)]) {
      EntriesBelow(s.items.value, j.items[i], base + [Index(i)], e);
      Longer(base, Index(i), base + p);
      assert (base + p)[|base|] == p[0];
    }
    if p[0].Index? && p[0].index < |j.items| {
      var i := p[0].index;
      assert base + p == (base + [Index(i)]) + p[1..];
      ValidItem(j, i);
      IssuesAreFaults(s.items.value, j.items[i], base + [Index(i)], p[1..], problem);
    }
  }

  lemma ValidItem(j: Json, i: nat)
    requires Valid(j) && i < Width(j)
    ensures Valid(Child(j, i))
  {
  }

  /** Of an object, the issues of its keys and those inside its fields. */
  lemma KeyIssues(s: Schema, j: Json, base: Path, p: Path, problem: Problem)
    requires Valid(j) && GoesInto(s, j) && j.Obj? && p != []
    ensures
      ((problem == Missing && exists k :: k in s.required && Get(j, k).None? && base + p == base + [Key(k)])
       || exists i :: 0 <= i < |j.fields| && Issue(base + p, problem) in FieldIssues(s, j.fields[i], base)) <==>
      FaultAt(s, j, p, problem)
    decreases |p|, 1
  {
    hide Validate, Fault, Get, Valid, FieldIssues;
    var e := Issue(base + p, problem);
    assert forall k :: base + p == base + [Key(k)] <==> p == [Key(k)] by {
      forall k ensures base + p == base + [Key(k)] <==> p == [Key(k)] { SamePath(base, p, [Key(k)]); }
    }
    if i :| 0 <= i < |j.fields| && e in FieldIssues(s, j.fields[i], base) {
      FieldBelow(s, j.fields[i], base, e);
      assert (base + p)[|base|] == p[0];
      KeyLeads(j, i);
      FieldIssue(s, j, i, base, p, problem);
    }
    if p[0].Key? && Position(j, p[0]).Some? {
      var i := Position(j, p[0]).value;
      KeyLeads(j, i);
      FieldIssue(s, j, i, base, p, problem);
    }
    if p[0].Key? && Position(j, p[0]).None? { KeyAbsent(j, p[0].key); }
  }

  lemma SamePath(base: Path, p: Path, q: Path)
    ensures base + p == base + q <==> p == q
  {
    if base + p == base + q {
      assert (base + p)[|base|..] == p && (base + q)[|base|..] == q;
    }
  }

  lemma KeyAbsent(j: Json, key: string)
    requires j.Obj?
    ensures Position(j, Key(key)).None? <==> Get(j, key).None?
  {
  }

  /** The issues of the field a key leads to. */
  lemma FieldIssue(s: Schema, j: Json, i: nat, base: Path, p: Path, problem: Problem)
    requires Valid(j) && GoesInto(s, j) && j.Obj? && p != [] && i < |j.fields| && p[0] == Key(j.fields[i].key)
    requires Position(j, p[0]) == Some(i) && Get(j, p[0].key) == Some(j.fields[i].value)
    ensures Issue(base + p, problem) in FieldIssues(s, j.fields[i], base) <==> FaultAt(s, j, p, problem)
    decreases |p|, 0
  {
    hide Validate, Fault, Get, Valid, Position;
    var f := j.fields[i];
    assert base + p == (base + [Key(f.key)]) + p[1..];
    assert |p| == 1 <==> p[1..] == [];
    assert base + p == base + [Key(f.key)] <==> |p| == 1 by { SamePath(base, p, [Key(f.key)]); }
    ValidItem(j, i);
    if ChildSchema(s, j, i).Some? {
      IssuesAreFaults(ChildSchema(s, j, i).value, f.value, base + [Key(f.key)], p[1..], problem);
    }
  }

  /**
   The report of the validator, path by path: it names exactly the faults of the nodes the schema governs.
   An issue stands at the path of a node whose value, type or bound is wrong there, or at the key an
   object lacks or may not have; a node is looked into only when it is itself in order, and no fault of
   one that is looked into is left out.
   */
  lemma ReportIsTheFaults(s: Schema, j: Json, e: Issue)
    requires Valid(j)
    ensures e in Validate(s, j, []) <==> FaultAt(s, j, e.path, e.problem)
  {
    hide Validate, FaultAt;
    assert [] + e.path == e.path;
    IssuesAreFaults(s, j, [], e.path, e.problem);
  }
}
