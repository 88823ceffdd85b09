/**
 The JSON-Schema subset of tool definitions and its validator.
 */
module SchemaModel {
  import opened Wrappers
  import opened JsonModel

  /** `anyOf`, when the schema has one. */
  datatype Choice = Absent | AnyOf(options: seq<Schema>)

  /** `additionalProperties`: absent, `false`, or a schema. */
  datatype Additional = Anything | Nothing | Each(schema: Schema)

  datatype Schema = Schema(
    anyOf: Choice, enumeration: Option<seq<Json>>, constant: Option<Json>, kind: string,
    minLength: Option<nat>, maxLength: Option<nat>, minimum: Option<real>, maximum: Option<real>,
    minItems: Option<nat>, maxItems: Option<nat>, items: Option<Schema>,
    properties: map<string, Schema>, required: seq<string>, additional: Additional)

  datatype Problem = NoShape | NotInEnum | NotConst | WrongType | TooShort | TooLong | TooSmall | TooLarge
                   | TooFewItems | TooManyItems | Missing | NotAllowed

  datatype Issue = Issue(path: Path, problem: Problem)

  function Get(j: Json, key: string): (r: Option<Json>)
    ensures r.Some? ==> r.value < j
  {
    if j.Obj? && FindKey(j.fields, key).Some? then Some(j.fields[FindKey(j.fields, key).value].value) else None
  }

  predicate IsInteger(r: real) {
    r.Floor as real == r
  }

  // ----- the validator -----

  function One(path: Path, problem: Problem): seq<Issue> {
    [Issue(path, problem)]
  }

  function ValidateText(s: Schema, j: Json, path: Path): seq<Issue> {
    if !j.Str? then One(path, WrongType)
    else if s.minLength.Some? && |j.text| < s.minLength.value then One(path, TooShort)
    else if s.maxLength.Some? && |j.text| > s.maxLength.value then One(path, TooLong)
    else []
  }

  function ValidateNumber(s: Schema, j: Json, path: Path): seq<Issue> {
    if !j.Num? then One(path, WrongType)
    else if s.kind == "integer" && !IsInteger(j.number) then One(path, WrongType)
    else if s.minimum.Some? && j.number < s.minimum.value then One(path, TooSmall)
    else if s.maximum.Some? && j.number > s.maximum.value then One(path, TooLarge)
    else []
  }

  /** `validateAiToolInput`: the issues of a value, none when it is accepted. */
  function Validate(s: Schema, j: Json, path: Path): seq<Issue>
    decreases s, 1, 0
  {
    if s.anyOf.AnyOf? then
      if exists i :: 0 <= i < |s.anyOf.options| && Validate(s.anyOf.options[i], j, path) == [] then [] else One(path, NoShape)
    else if s.enumeration.Some? && j !in s.enumeration.value then One(path, NotInEnum)
    else if s.constant.Some? && j != s.constant.value then One(path, NotConst)
    else if s.kind == "null" then (if j.Null? then [] else One(path, WrongType))
    else if s.kind == "string" then ValidateText(s, j, path)
    else if s.kind == "number" || s.kind == "integer" then ValidateNumber(s, j, path)
    else if s.kind == "boolean" then (if j.Bool? then [] else One(path, WrongType))
    else if s.kind == "array" then
      if !j.Arr? then One(path, WrongType)
      else if s.minItems.Some? && |j.items| < s.minItems.value then One(path, TooFewItems)
      else if s.maxItems.Some? && |j.items| > s.maxItems.value then One(path, TooManyItems)
      else if s.items.None? then []
      else ValidateItems(s, j.items, path, |j.items|)
    else if s.kind == "object" then
      if !j.Obj? then One(path, WrongType)
      else MissingKeys(s.required, j, path) + ValidateFields(s, j.fields, path, |j.fields|)
    else []
  }

  function ValidateItems(s: Schema, items: seq<Json>, path: Path, n: nat): seq<Issue>
    requires s.items.Some? && n <= |items|
    decreases s, 0, n
  {
    if n == 0 then []
    else ValidateItems(s, items, path, n - 1) + Validate(s.items.value, items[n - 1], path + [Index(n - 1)])
  }

  function MissingKeys(required: seq<string>, j: Json, path: Path): seq<Issue> {
    if required == [] then []
    else (if Get(j, required[0]).Some? then [] else One(path + [Key(required[0])], Missing)) + MissingKeys(required[1..], j, path)
  }

  function ValidateFields(s: Schema, fields: seq<Field>, path: Path, n: nat): seq<Issue>
    requires n <= |fields|
    decreases s, 0, n
  {
    if n == 0 then []
    else
      var f := fields[n - 1];
      var at := path + [Key(f.key)];
      ValidateFields(s, fields, path, n - 1) +
        (if f.key in s.properties then Validate(s.properties[f.key], f.value, at)
         else if s.additional.Nothing? then One(at, NotAllowed)
         else if s.additional.Each? then Validate(s.additional.schema, f.value, at)
         else [])
  }

  // ----- what a schema accepts, without issues or order -----

  predicate Accepts(s: Schema, j: Json)
    decreases s
  {
    if s.anyOf.AnyOf? then exists i :: 0 <= i < |s.anyOf.options| && Accepts(s.anyOf.options[i], j)
    else
      && (s.enumeration.Some? ==> j in s.enumeration.value)
      && (s.constant.Some? ==> j == s.constant.value)
      && (s.kind == "null" ==> j.Null?)
      && (s.kind == "string" ==> TextFits(s, j))
      && (s.kind == "number" || s.kind == "integer" ==> NumberFits(s, j))
      && (s.kind == "boolean" ==> j.Bool?)
      && (s.kind == "array" ==>
            && j.Arr? && ItemsFit(s, j)
            && (s.items.Some? ==> forall i :: 0 <= i < |j.items| ==> Accepts(s.items.value, j.items[i])))
      && (s.kind == "object" ==>
            && j.Obj? && (forall k :: k in s.required ==> Get(j, k).Some?)
            && forall i :: 0 <= i < |j.fields| ==>
                 if j.fields[i].key in s.properties then Accepts(s.properties[j.fields[i].key], j.fields[i].value)
                 else !s.additional.Nothing? && (s.additional.Each? ==> Accepts(s.additional.schema, j.fields[i].value)))
  }

  predicate TextFits(s: Schema, j: Json) {
    && j.Str?
    && (s.minLength.Some? ==> |j.text| >= s.minLength.value)
    && (s.maxLength.Some? ==> |j.text| <= s.maxLength.value)
  }

  predicate NumberFits(s: Schema, j: Json) {
    && j.Num?
    && (s.kind == "integer" ==> IsInteger(j.number))
    && (s.minimum.Some? ==> j.number >= s.minimum.value)
    && (s.maximum.Some? ==> j.number <= s.maximum.value)
  }

  predicate ItemsFit(s: Schema, j: Json)
    requires j.Arr?
  {
    && (s.minItems.Some? ==> |j.items| >= s.minItems.value)
    && (s.maxItems.Some? ==> |j.items| <= s.maxItems.value)
  }
}
