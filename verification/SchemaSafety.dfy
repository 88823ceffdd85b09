/**
 The validator reports nothing exactly for the values the schema accepts.
 */
module SchemaSafety {
  import opened Wrappers
  import opened JsonModel
  import opened SchemaModel

  lemma {:induction false} MissingNone(required: seq<string>, j: Json, path: Path)
    ensures MissingKeys(required, j, path) == [] <==> forall k :: k in required ==> Get(j, k).Some?
  {
    hide Get;
    if required != [] {
      MissingNone(required[1..], j, path);
      assert required == [required[0]] + required[1..];
      assert required[0] in required;
    }
  }

  lemma {:induction false} ItemsNone(s: Schema, items: seq<Json>, path: Path, n: nat)
    requires s.items.Some? && n <= |items|
    ensures ValidateItems(s, items, path, n) == [] <==> forall i :: 0 <= i < n ==> Accepts(s.items.value, items[i])
    decreases s, 0, n
  {
    hide Validate, Accepts;
    if n > 0 {
      ItemsNone(s, items, path, n - 1);
      ValidateIffAccepts(s.items.value, items[n - 1], path + [Index(n - 1)]);
    }
  }

  /** The field passes: by its property, or by what the schema says of other keys. */
  predicate FieldPasses(s: Schema, f: Field) {
    if f.key in s.properties then Accepts(s.properties[f.key], f.value)
    else !s.additional.Nothing? && (s.additional.Each? ==> Accepts(s.additional.schema, f.value))
  }

  lemma {:induction false} FieldsNone(s: Schema, fields: seq<Field>, path: Path, n: nat)
    requires n <= |fields|
    ensures ValidateFields(s, fields, path, n) == [] <==> forall i :: 0 <= i < n ==> FieldPasses(s, fields[i])
    decreases s, 0, n
  {
    hide Validate, Accepts;
    if n > 0 {
      FieldsNone(s, fields, path, n - 1);
      var f := fields[n - 1];
      if f.key in s.properties {
        ValidateIffAccepts(s.properties[f.key], f.value, path + [Key(f.key)]);
      } else if s.additional.Each? {
        ValidateIffAccepts(s.additional.schema, f.value, path + [Key(f.key)]);
      }
    }
  }

  lemma {:induction false} ValidateIffAccepts(s: Schema, j: Json, path: Path)
    ensures Validate(s, j, path) == [] <==> Accepts(s, j)
    decreases s, 1, 0
  {
    hide ValidateItems, ValidateFields, MissingKeys, Get;
    if s.anyOf.AnyOf? {
      forall i | 0 <= i < |s.anyOf.options| ensures Validate(s.anyOf.options[i], j, path) == [] <==> Accepts(s.anyOf.options[i], j) {
        ValidateIffAccepts(s.anyOf.options[i], j, path);
      }
    } else if s.kind == "array" && j.Arr? && s.items.Some? {
      ItemsNone(s, j.items, path, |j.items|);
    } else if s.kind == "object" && j.Obj? {
      MissingNone(s.required, j, path);
      FieldsNone(s, j.fields, path, |j.fields|);
    }
  }
}
