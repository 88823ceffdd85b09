/**
 The input schemas of `show_ui` and `ask_ui`, and the parsers written by hand for the same inputs.
 An object literal is a list of slots; a slot that is `undefined` does not show.
 */
module UiModel {
  import opened Wrappers
  import opened JsonModel
  import opened SchemaModel

  // ----- the schemas -----

  function OfKind(kind: string): Schema {
    Schema(Absent, None, None, kind, None, None, None, None, None, None, None, map[], [], Anything)
  }

  function ObjectOf(properties: map<string, Schema>, required: seq<string>): Schema {
    OfKind("object").(properties := properties, required := required, additional := Nothing)
  }

  function ListOf(items: Schema, minItems: Option<nat>, maxItems: Option<nat>): Schema {
    OfKind("array").(items := Some(items), minItems := minItems, maxItems := maxItems)
  }

  function OneOf(texts: seq<Json>): Schema {
    OfKind("string").(enumeration := Some(texts))
  }

  function Either(options: seq<Schema>): Schema {
    OfKind("").(anyOf := AnyOf(options))
  }

  const TEXT := OfKind("string")
  const NUMBER := OfKind("number")
  const FLAG := OfKind("boolean")
  const NON_EMPTY := TEXT.(minLength := Some(1))
  const POSITION := OfKind("integer").(minimum := Some(1.0))
  const SEVERITY_NAMES := [Str("error"), Str("warning"), Str("info"), Str("success")]
  const SEVERITY := OneOf(SEVERITY_NAMES)
  const VARIANTS := [Str("default"), Str("ghost"), Str("destructive")]

  const FILE_REF := ObjectOf(map["file" := TEXT, "line" := POSITION, "column" := POSITION], ["file"])

  const COLUMN := ObjectOf(
    map["key" := NON_EMPTY, "label" := NON_EMPTY, "align" := OneOf([Str("left"), Str("right")]), "mono" := FLAG],
    ["key", "label"])

  const CELLS := OfKind("object").(additional := Each(Either([TEXT, NUMBER, FLAG])))

  const ROW := ObjectOf(map["cells" := CELLS, "ref" := FILE_REF], ["cells"])

  const POINT := ObjectOf(map["x" := Either([TEXT, NUMBER]), "y" := NUMBER], ["x", "y"])

  const SERIES := ObjectOf(map["name" := NON_EMPTY, "points" := ListOf(POINT, Some(1), Some(200))], ["name", "points"])

  const FINDING := ObjectOf(
    map["severity" := SEVERITY, "message" := NON_EMPTY, "detail" := TEXT, "ref" := FILE_REF], ["severity", "message"])

  const TREE_NODE := ObjectOf(
    map["label" := NON_EMPTY, "depth" := OfKind("integer").(minimum := Some(0.0), maximum := Some(8.0)),
        "isDir" := FLAG, "note" := TEXT, "ref" := FILE_REF],
    ["label", "depth"])

  const METRIC := ObjectOf(
    map["label" := NON_EMPTY, "value" := Either([TEXT, NUMBER]), "hint" := TEXT, "severity" := SEVERITY], ["label", "value"])

  const CARD := ObjectOf(
    map["title" := NON_EMPTY, "body" := TEXT, "badge" := TEXT, "severity" := SEVERITY, "ref" := FILE_REF], ["title"])

  function KindIs(kind: string): Schema {
    OfKind("").(constant := Some(Str(kind)))
  }

  const TABLE := ObjectOf(
    map["kind" := KindIs("table"), "title" := TEXT, "columns" := ListOf(COLUMN, Some(1), Some(8)),
        "rows" := ListOf(ROW, None, Some(200))],
    ["kind", "columns", "rows"])

  const CHART := ObjectOf(
    map["kind" := KindIs("chart"), "title" := TEXT, "chart" := OneOf([Str("bar"), Str("line"), Str("area")]),
        "xLabel" := TEXT, "yLabel" := TEXT, "series" := ListOf(SERIES, Some(1), Some(5))],
    ["kind", "chart", "series"])

  const DIFF := ObjectOf(
    map["kind" := KindIs("diff"), "title" := TEXT, "path" := TEXT, "patch" := TEXT, "before" := TEXT, "after" := TEXT],
    ["kind"])

  const FINDINGS := ObjectOf(
    map["kind" := KindIs("findings"), "title" := TEXT, "items" := ListOf(FINDING, None, Some(100))], ["kind", "items"])

  const TREE := ObjectOf(
    map["kind" := KindIs("tree"), "title" := TEXT, "nodes" := ListOf(TREE_NODE, None, Some(300))], ["kind", "nodes"])

  const METRICS := ObjectOf(
    map["kind" := KindIs("metrics"), "title" := TEXT, "items" := ListOf(METRIC, Some(1), Some(8))], ["kind", "items"])

  const CARDS := ObjectOf(
    map["kind" := KindIs("cards"), "title" := TEXT, "items" := ListOf(CARD, None, Some(30))], ["kind", "items"])

  const VIEW := Either([TABLE, CHART, DIFF, FINDINGS, TREE, METRICS, CARDS])

  const ACTION := ObjectOf(
    map["id" := NON_EMPTY, "label" := NON_EMPTY, "description" := TEXT, "recommended" := FLAG, "variant" := OneOf(VARIANTS)],
    ["id", "label"])

  const SHOW_UI := ObjectOf(map["view" := VIEW], ["view"])

  const ASK_UI := ObjectOf(
    map["view" := VIEW, "question" := TEXT, "actions" := ListOf(ACTION, Some(1), Some(5)), "allowNote" := FLAG,
        "selectable" := FLAG],
    ["view", "actions"])

  // ----- what the parsers build -----

  /** A property of an object literal; None is `undefined`, which the object does not show. */
  datatype Slot = Slot(key: string, value: Option<Json>)

  function FieldsOf(slots: seq<Slot>): seq<Field> {
    if slots == [] then []
    else (if slots[0].value.Some? then [Field(slots[0].key, slots[0].value.value)] else []) + FieldsOf(slots[1..])
  }

  function Build(slots: seq<Slot>): Json {
    Obj(FieldsOf(slots))
  }

  /** The property of the input, passed on as it is. */
  function Copy(raw: Json, key: string): Slot {
    Slot(key, Get(raw, key))
  }

  function List(key: string, items: Option<seq<Json>>): Slot {
    Slot(key, if items.Some? then Some(Arr(items.value)) else None)
  }

  // ----- the checks of the parsers -----

  predicate OptionalText(o: Option<Json>) {
    o.Some? ==> o.value.Str?
  }

  predicate OptionalFlag(o: Option<Json>) {
    o.Some? ==> o.value.Bool?
  }

  predicate NonEmpty(o: Option<Json>) {
    o.Some? && o.value.Str? && |o.value.text| > 0
  }

  predicate TextOrNumber(o: Option<Json>) {
    o.Some? && (o.value.Str? || o.value.Num?)
  }

  predicate Integer(o: Option<Json>) {
    o.Some? && o.value.Num? && IsInteger(o.value.number)
  }

  predicate ListWithin(o: Option<Json>, least: nat, most: nat) {
    o.Some? && o.value.Arr? && least <= |o.value.items| <= most
  }

  /** `names.has(String(value))`: `String` turns a one-item array into its item. */
  predicate Names(names: seq<Json>, j: Json) {
    j in names || (j.Arr? && |j.items| == 1 && Names(names, j.items[0]))
  }

  predicate OptionalName(names: seq<Json>, o: Option<Json>) {
    o.Some? ==> Names(names, o.value)
  }

  predicate OptionalPosition(o: Option<Json>) {
    o.Some? ==> Integer(o) && o.value.number >= 1.0
  }

  function FileRef(j: Json): Option<Json> {
    if Get(j, "file").Some? && Get(j, "file").value.Str? && OptionalPosition(Get(j, "line")) && OptionalPosition(Get(j, "column"))
    then Some(Build([Copy(j, "file"), Copy(j, "line"), Copy(j, "column")]))
    else None
  }

  /** The `ref` property, parsed; absent when the input has none or a bad one. */
  function RefSlot(j: Json): Slot {
    Slot("ref", if Get(j, "ref").Some? then FileRef(Get(j, "ref").value) else None)
  }

  predicate RefOk(j: Json) {
    Get(j, "ref").Some? ==> RefSlot(j).value.Some?
  }

  // ----- items -----

  datatype Item = ColumnItem | RowItem | PointItem | SeriesItem | FindingItem | NodeItem | MetricItem | CardItem | ActionItem

  predicate PlainCells(o: Option<Json>) {
    o.Some? && o.value.Obj? &&
    forall i :: 0 <= i < |o.value.fields| ==>
      var cell := o.value.fields[i].value;
      cell.Str? || cell.Num? || cell.Bool?
  }

  function ParseItem(kind: Item, j: Json): Option<Json>
    decreases j, 0
  {
    if !j.Obj? then None
    else
      match kind
      case ColumnItem =>
        if NonEmpty(Get(j, "key")) && NonEmpty(Get(j, "label")) && OptionalFlag(Get(j, "mono")) &&
           (Get(j, "align").Some? ==> Get(j, "align").value in [Str("left"), Str("right")])
        then Some(Build([Copy(j, "key"), Copy(j, "label"), Copy(j, "align"), Copy(j, "mono")])) else None
      case RowItem =>
        if PlainCells(Get(j, "cells")) && RefOk(j) then Some(Build([Copy(j, "cells"), RefSlot(j)])) else None
      case PointItem =>
        if TextOrNumber(Get(j, "x")) && Get(j, "y").Some? && Get(j, "y").value.Num?
        then Some(Build([Copy(j, "x"), Copy(j, "y")])) else None
      case SeriesItem =>
        if NonEmpty(Get(j, "name")) && ListWithin(Get(j, "points"), 1, 200) then
          var points := ParseItems(PointItem, Get(j, "points").value);
          if points.Some? then Some(Build([Copy(j, "name"), List("points", points)])) else None
        else None
      case FindingItem =>
        if Get(j, "severity").Some? && OptionalName(SEVERITY_NAMES, Get(j, "severity")) && NonEmpty(Get(j, "message")) &&
           OptionalText(Get(j, "detail")) && RefOk(j)
        then Some(Build([Copy(j, "severity"), Copy(j, "message"), Copy(j, "detail"), RefSlot(j)])) else None
      case NodeItem =>
        if NonEmpty(Get(j, "label")) && Integer(Get(j, "depth")) && 0.0 <= Get(j, "depth").value.number <= 8.0 &&
           OptionalFlag(Get(j, "isDir")) && OptionalText(Get(j, "note")) && RefOk(j)
        then Some(Build([Copy(j, "label"), Copy(j, "depth"), Copy(j, "isDir"), Copy(j, "note"), RefSlot(j)])) else None
      case MetricItem =>
        if NonEmpty(Get(j, "label")) && TextOrNumber(Get(j, "value")) && OptionalText(Get(j, "hint")) &&
           OptionalName(SEVERITY_NAMES, Get(j, "severity"))
        then Some(Build([Copy(j, "label"), Copy(j, "value"), Copy(j, "hint"), Copy(j, "severity")])) else None
      case CardItem =>
        if NonEmpty(Get(j, "title")) && OptionalText(Get(j, "body")) && OptionalText(Get(j, "badge")) &&
           OptionalName(SEVERITY_NAMES, Get(j, "severity")) && RefOk(j)
        then Some(Build([Copy(j, "title"), Copy(j, "body"), Copy(j, "badge"), Copy(j, "severity"), RefSlot(j)])) else None
      case ActionItem =>
        if NonEmpty(Get(j, "id")) && NonEmpty(Get(j, "label")) && OptionalText(Get(j, "description")) &&
           OptionalFlag(Get(j, "recommended")) && OptionalName(VARIANTS, Get(j, "variant"))
        then Some(Build([Copy(j, "id"), Copy(j, "label"), Copy(j, "description"), Copy(j, "recommended"), Copy(j, "variant")]))
        else None
  }

  /** All items of the list, or None when one of them does not parse. */
  function ParseItems(kind: Item, list: Json): Option<seq<Json>>
    requires list.Arr?
    decreases list, |list.items| + 1
  {
    ParseFirst(kind, list, |list.items|)
  }

  function ParseFirst(kind: Item, list: Json, n: nat): (r: Option<seq<Json>>)
    requires list.Arr? && n <= |list.items|
    ensures r.Some? ==> |r.value| == n
    decreases list, n
  {
    if n == 0 then Some([])
    else
      var before := ParseFirst(kind, list, n - 1);
      var item := ParseItem(kind, list.items[n - 1]);
      if before.Some? && item.Some? then Some(before.value + [item.value]) else None
  }

  // ----- views -----

  /** A view whose one list of items is under `key`. */
  function ListView(raw: Json, key: string, kind: Item, least: nat, most: nat): Option<Json> {
    if OptionalText(Get(raw, "title")) && ListWithin(Get(raw, key), least, most) && ParseItems(kind, Get(raw, key).value).Some?
    then Some(Build([Copy(raw, "kind"), Copy(raw, "title"), List(key, ParseItems(kind, Get(raw, key).value))]))
    else None
  }

  function TableView(raw: Json): Option<Json> {
    if OptionalText(Get(raw, "title")) && ListWithin(Get(raw, "columns"), 1, 8) && ListWithin(Get(raw, "rows"), 0, 200) then
      var columns, rows := ParseItems(ColumnItem, Get(raw, "columns").value), ParseItems(RowItem, Get(raw, "rows").value);
      if columns.Some? && rows.Some?
      then Some(Build([Copy(raw, "kind"), Copy(raw, "title"), List("columns", columns), List("rows", rows)]))
      else None
    else None
  }

  function ChartView(raw: Json): Option<Json> {
    if OptionalText(Get(raw, "title")) &&
       Get(raw, "chart").Some? && Get(raw, "chart").value in [Str("bar"), Str("line"), Str("area")] &&
       OptionalText(Get(raw, "xLabel")) && OptionalText(Get(raw, "yLabel")) && ListWithin(Get(raw, "series"), 1, 5)
    then
      var series := ParseItems(SeriesItem, Get(raw, "series").value);
      if series.Some? then
        Some(Build([Copy(raw, "kind"), Copy(raw, "title"), Copy(raw, "chart"), Copy(raw, "xLabel"), Copy(raw, "yLabel"),
                    List("series", series)]))
      else None
    else None
  }

  function DiffView(raw: Json): Option<Json> {
    if OptionalText(Get(raw, "title")) && OptionalText(Get(raw, "path")) && OptionalText(Get(raw, "patch")) &&
       OptionalText(Get(raw, "before")) && OptionalText(Get(raw, "after"))
    then Some(Build([Copy(raw, "kind"), Copy(raw, "title"), Copy(raw, "path"), Copy(raw, "patch"), Copy(raw, "before"),
                     Copy(raw, "after")]))
    else None
  }

  function ParseView(j: Json): Option<Json> {
    var kind := Get(j, "kind");
    if kind == Some(Str("table")) then TableView(j)
    else if kind == Some(Str("chart")) then ChartView(j)
    else if kind == Some(Str("diff")) then DiffView(j)
    else if kind == Some(Str("findings")) then ListView(j, "items", FindingItem, 0, 100)
    else if kind == Some(Str("tree")) then ListView(j, "nodes", NodeItem, 0, 300)
    else if kind == Some(Str("metrics")) then ListView(j, "items", MetricItem, 1, 8)
    else if kind == Some(Str("cards")) then ListView(j, "items", CardItem, 0, 30)
    else None
  }

  function ParseShowUi(j: Json): Option<Json> {
    if Get(j, "view").Some? && ParseView(Get(j, "view").value).Some?
    then Some(Build([Slot("view", ParseView(Get(j, "view").value))])) else None
  }

  /** The actions that parse; the others are dropped. */
  function Actions(list: Json, n: nat): seq<Json>
    requires list.Arr? && n <= |list.items|
  {
    if n == 0 then []
    else
      var action := ParseItem(ActionItem, list.items[n - 1]);
      Actions(list, n - 1) + if action.Some? then [action.value] else []
  }

  function Kept(o: Option<Json>, keep: bool): Option<Json> {
    if keep then o else None
  }

  function ParseAskUi(j: Json): Option<Json> {
    if Get(j, "view").None? || ParseView(Get(j, "view").value).None? then None
    else
      var list := Get(j, "actions");
      var actions := if list.Some? && list.value.Arr? then Actions(list.value, |list.value.items|) else [];
      if actions == [] then None
      else
        var question, note := Get(j, "question"), Get(j, "allowNote");
        Some(Build([Slot("view", ParseView(Get(j, "view").value)), Slot("actions", Some(Arr(actions))),
                    Slot("question", Kept(question, OptionalText(question))),
                    Slot("allowNote", Kept(note, OptionalFlag(note))),
                    Slot("selectable", Some(Bool(Get(j, "selectable") == Some(Bool(true)))))]))
  }
}
