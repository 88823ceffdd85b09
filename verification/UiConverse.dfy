/**
 The other direction of the agreement: what the parsers pass through unchanged is what the
 schemas accept, once the names of severities and variants are plain strings. Together the
 two directions make validation and parsing one language.
 */
module UiConverse {
  import opened Wrappers
  import opened JsonModel
  import opened SchemaModel
  import Schemas = SchemaSafety
  import opened UiModel
  import opened UiAgreement

  // ----- building acceptance from the parts -----

  /** With distinct keys a lookup gives the value of the field. */
  lemma {:induction false} FieldFound(j: Json, i: nat)
    requires Valid(j) && j.Obj? && i < |j.fields|
    ensures Get(j, j.fields[i].key) == Some(j.fields[i].value)
  {
    hide FindKey;
    var k := FindKey(j.fields, j.fields[i].key);
  }

  /** Every present key is a property and its value fits. */
  ghost predicate FieldsFit(s: Schema, j: Json) {
    forall k :: Get(j, k).Some? ==> k in s.properties && Accepts(s.properties[k], Get(j, k).value)
  }

  lemma ObjectFits(s: Schema, j: Json)
    requires s.anyOf.Absent? && s.enumeration.None? && s.constant.None? && s.kind == "object"
    requires j.Obj? && Valid(j) && (forall k :: k in s.required ==> Get(j, k).Some?) && FieldsFit(s, j)
    ensures Accepts(s, j)
  {
    hide Get, Valid;
    forall i | 0 <= i < |j.fields|
      ensures j.fields[i].key in s.properties && Accepts(s.properties[j.fields[i].key], j.fields[i].value)
    {
      FieldFound(j, i);
    }
  }

  lemma ListFits(items: Schema, least: Option<nat>, most: Option<nat>, j: Json)
    requires j.Arr? && forall i :: 0 <= i < |j.items| ==> Accepts(items, j.items[i])
    requires (least.Some? ==> least.value <= |j.items|) && (most.Some? ==> |j.items| <= most.value)
    ensures Accepts(ListOf(items, least, most), j)
  {
  }

  lemma TextFitsSchema(j: Json, least: nat)
    requires j.Str? && least <= |j.text|
    ensures Accepts(TEXT, j) && Accepts(TEXT.(minLength := Some(least)), j)
  {
  }

  lemma FlagFits(j: Json)
    requires j.Bool?
    ensures Accepts(FLAG, j)
  {
  }

  lemma NumberFitsSchema(s: Schema, j: Json)
    requires s.anyOf.Absent? && s.enumeration.None? && s.constant.None? && (s.kind == "number" || s.kind == "integer")
    requires NumberFits(s, j)
    ensures Accepts(s, j)
  {
  }

  lemma NameFits(names: seq<Json>, j: Json)
    requires j in names && j.Str?
    ensures Accepts(OneOf(names), j)
  {
  }

  lemma EitherFits(options: seq<Schema>, i: nat, j: Json)
    requires i < |options| && Accepts(options[i], j)
    ensures Accepts(Either(options), j)
  {
  }

  lemma TextOrNumberFits(j: Json)
    requires j.Str? || j.Num?
    ensures Accepts(Either([TEXT, NUMBER]), j)
  {
    hide Accepts;
    if j.Str? {
      TextFitsSchema(j, 0);
      EitherFits([TEXT, NUMBER], 0, j);
    } else {
      NumberFitsSchema(NUMBER, j);
      EitherFits([TEXT, NUMBER], 1, j);
    }
  }

  lemma KindFits(kind: string, j: Json)
    requires j == Str(kind)
    ensures Accepts(KindIs(kind), j)
  {
  }

  // ----- what a parse that changes nothing says -----

  /** A key of the input is the key of a slot that shows it. */
  lemma ShownKey(slots: seq<Slot>, j: Json, k: string) returns (i: nat)
    requires Same(Build(slots), j) && j.Obj? && Get(j, k).Some?
    ensures i < |slots| && slots[i].key == k && slots[i].value.Some? && Same(slots[i].value.value, Get(j, k).value)
  {
    hide Get, FieldsOf, FirstFilled;
    BuiltFields(slots, k);
    i :| 0 <= i < |slots| && slots[i] == Slot(k, Get(Build(slots), k));
  }

  /** Severities and variants anywhere in the value are not wrapped in lists. */
  predicate Unwrapped(j: Json)
    decreases j
  {
    && (j.Obj? && Get(j, "severity").Some? ==> !Get(j, "severity").value.Arr?)
    && (j.Obj? && Get(j, "variant").Some? ==> !Get(j, "variant").value.Arr?)
    && (forall i :: 0 <= i < Width(j) ==> Unwrapped(Child(j, i)))
  }

  /** Distinct keys and unwrapped names. */
  predicate Proper(j: Json) {
    Valid(j) && Unwrapped(j)
  }

  lemma ProperField(j: Json, k: string)
    requires Proper(j) && Get(j, k).Some?
    ensures Proper(Get(j, k).value)
  {
    var i := FindKey(j.fields, k).value;
    assert Child(j, i) == Get(j, k).value;
  }

  lemma ProperItem(j: Json, i: nat)
    requires Proper(j) && j.Arr? && i < |j.items|
    ensures Proper(j.items[i])
  {
    assert Child(j, i) == j.items[i];
  }

  lemma PlainName(names: seq<Json>, j: Json, key: string)
    requires key == "severity" || key == "variant"
    requires Proper(j) && Get(j, key).Some? && OptionalName(names, Get(j, key)) && forall n :: n in names ==> n.Str?
    ensures Accepts(OneOf(names), Get(j, key).value)
  {
    hide Accepts;
    NameFits(names, Get(j, key).value);
  }

  lemma FileRefFits(j: Json)
    requires Proper(j) && FileRef(j).Some? && Same(FileRef(j).value, j)
    ensures Accepts(FILE_REF, j)
  {
    hide Accepts, Get, Same, Build, Proper;
    var slots := [Copy(j, "file"), Copy(j, "line"), Copy(j, "column")];
    assert slots[0].key == "file" && slots[1].key == "line" && slots[2].key == "column";
    ItIsObject(slots, j);
    TextFitsSchema(Get(j, "file").value, 0);
    if Get(j, "line").Some? { NumberFitsSchema(POSITION, Get(j, "line").value); }
    if Get(j, "column").Some? { NumberFitsSchema(POSITION, Get(j, "column").value); }
    forall k | Get(j, k).Some? ensures k in FILE_REF.properties && Accepts(FILE_REF.properties[k], Get(j, k).value) {
      var i := ShownKey(slots, j, k);
    }
    ProperIsValid(j);
    ObjectFits(FILE_REF, j);
  }

  lemma ItIsObject(slots: seq<Slot>, j: Json)
    requires Same(Build(slots), j)
    ensures j.Obj?
  {
  }

  lemma ProperIsValid(j: Json)
    requires Proper(j)
    ensures Valid(j)
  {
  }

  lemma RefFits(slots: seq<Slot>, i: nat, j: Json)
    requires Proper(j) && Get(j, "ref").Some? && RefOk(j)
    requires i < |slots| && slots[i] == RefSlot(j) && Same(Build(slots), j) && j.Obj?
    requires forall m :: 0 <= m < |slots| && m != i ==> slots[m].key != "ref"
    ensures Accepts(FILE_REF, Get(j, "ref").value)
  {
    hide Accepts, Get, Same, FileRef, Build, Proper;
    var m := ShownKey(slots, j, "ref");
    ProperField(j, "ref");
    FileRefFits(Get(j, "ref").value);
  }

  // ----- items -----

  lemma ColumnFits(j: Json)
    requires Proper(j) && ParseItem(ColumnItem, j).Some? && Same(ParseItem(ColumnItem, j).value, j)
    ensures Accepts(COLUMN, j) && Accepts(SchemaOf(ColumnItem), j)
  {
    hide Accepts, Get, Same, Build, FileRef, ParseItems, Proper;
    var slots := [Copy(j, "key"), Copy(j, "label"), Copy(j, "align"), Copy(j, "mono")];
    assert slots[0].key == "key" && slots[1].key == "label" && slots[2].key == "align" && slots[3].key == "mono";
    if Get(j, "key").Some? { TextFitsSchema(Get(j, "key").value, 1); }
    if Get(j, "label").Some? { TextFitsSchema(Get(j, "label").value, 1); }
    if Get(j, "align").Some? { NameFits([Str("left"), Str("right")], Get(j, "align").value); }
    if Get(j, "mono").Some? { FlagFits(Get(j, "mono").value); }
    forall k | Get(j, k).Some? ensures k in COLUMN.properties && Accepts(COLUMN.properties[k], Get(j, k).value) {
      var i := ShownKey(slots, j, k);
    }
    ProperIsValid(j);
    ObjectFits(COLUMN, j);
  }

  lemma CellsFit(j: Json)
    requires PlainCells(Some(j)) && Valid(j)
    ensures Accepts(CELLS, j)
  {
    forall i | 0 <= i < |j.fields| ensures Accepts(Either([TEXT, NUMBER, FLAG]), j.fields[i].value) {
      CellFits(j.fields[i].value);
    }
  }

  lemma CellFits(j: Json)
    requires j.Str? || j.Num? || j.Bool?
    ensures Accepts(Either([TEXT, NUMBER, FLAG]), j)
  {
    hide Accepts;
    if j.Str? {
      TextFitsSchema(j, 0);
      EitherFits([TEXT, NUMBER, FLAG], 0, j);
    } else if j.Num? {
      NumberFitsSchema(NUMBER, j);
      EitherFits([TEXT, NUMBER, FLAG], 1, j);
    } else {
      FlagFits(j);
      EitherFits([TEXT, NUMBER, FLAG], 2, j);
    }
  }

  lemma RowFits(j: Json)
    requires Proper(j) && ParseItem(RowItem, j).Some? && Same(ParseItem(RowItem, j).value, j)
    ensures Accepts(ROW, j) && Accepts(SchemaOf(RowItem), j)
  {
    hide Accepts, Get, Same, Build, FileRef, ParseItems, Proper;
    var slots := [Copy(j, "cells"), RefSlot(j)];
    assert slots[0].key == "cells" && slots[1].key == "ref";
    ProperField(j, "cells");
    ProperIsValid(Get(j, "cells").value);
    CellsFit(Get(j, "cells").value);
    if Get(j, "ref").Some? { RefFits(slots, 1, j); }
    forall k | Get(j, k).Some? ensures k in ROW.properties && Accepts(ROW.properties[k], Get(j, k).value) {
      var i := ShownKey(slots, j, k);
    }
    ProperIsValid(j);
    ObjectFits(ROW, j);
  }

  lemma PointFits(j: Json)
    requires Proper(j) && ParseItem(PointItem, j).Some? && Same(ParseItem(PointItem, j).value, j)
    ensures Accepts(POINT, j) && Accepts(SchemaOf(PointItem), j)
  {
    hide Accepts, Get, Same, Build, FileRef, ParseItems, Proper;
    var slots := [Copy(j, "x"), Copy(j, "y")];
    assert slots[0].key == "x" && slots[1].key == "y";
    TextOrNumberFits(Get(j, "x").value);
    NumberFitsSchema(NUMBER, Get(j, "y").value);
    forall k | Get(j, k).Some? ensures k in POINT.properties && Accepts(POINT.properties[k], Get(j, k).value) {
      var i := ShownKey(slots, j, k);
    }
    ProperIsValid(j);
    ObjectFits(POINT, j);
  }

  lemma FindingFits(j: Json)
    requires Proper(j) && ParseItem(FindingItem, j).Some? && Same(ParseItem(FindingItem, j).value, j)
    ensures Accepts(FINDING, j) && Accepts(SchemaOf(FindingItem), j)
  {
    hide Accepts, Get, Same, Build, FileRef, ParseItems, Proper;
    var slots := [Copy(j, "severity"), Copy(j, "message"), Copy(j, "detail"), RefSlot(j)];
    assert slots[0].key == "severity" && slots[1].key == "message" && slots[2].key == "detail" && slots[3].key == "ref";
    if Get(j, "severity").Some? { PlainName(SEVERITY_NAMES, j, "severity"); }
    if Get(j, "message").Some? { TextFitsSchema(Get(j, "message").value, 1); }
    if Get(j, "detail").Some? { TextFitsSchema(Get(j, "detail").value, 0); }
    if Get(j, "ref").Some? { RefFits(slots, 3, j); }
    forall k | Get(j, k).Some? ensures k in FINDING.properties && Accepts(FINDING.properties[k], Get(j, k).value) {
      var i := ShownKey(slots, j, k);
    }
    ProperIsValid(j);
    ObjectFits(FINDING, j);
  }

  lemma NodeFits(j: Json)
    requires Proper(j) && ParseItem(NodeItem, j).Some? && Same(ParseItem(NodeItem, j).value, j)
    ensures Accepts(TREE_NODE, j) && Accepts(SchemaOf(NodeItem), j)
  {
    hide Accepts, Get, Same, Build, FileRef, ParseItems, Proper;
    var slots := [Copy(j, "label"), Copy(j, "depth"), Copy(j, "isDir"), Copy(j, "note"), RefSlot(j)];
    assert slots[0].key == "label" && slots[1].key == "depth" && slots[2].key == "isDir" && slots[3].key == "note" && slots[4].key == "ref";
    if Get(j, "label").Some? { TextFitsSchema(Get(j, "label").value, 1); }
    NumberFitsSchema(TREE_NODE.properties["depth"], Get(j, "depth").value);
    if Get(j, "isDir").Some? { FlagFits(Get(j, "isDir").value); }
    if Get(j, "note").Some? { TextFitsSchema(Get(j, "note").value, 0); }
    if Get(j, "ref").Some? { RefFits(slots, 4, j); }
    forall k | Get(j, k).Some? ensures k in TREE_NODE.properties && Accepts(TREE_NODE.properties[k], Get(j, k).value) {
      var i := ShownKey(slots, j, k);
    }
    ProperIsValid(j);
    ObjectFits(TREE_NODE, j);
  }

  lemma MetricFits(j: Json)
    requires Proper(j) && ParseItem(MetricItem, j).Some? && Same(ParseItem(MetricItem, j).value, j)
    ensures Accepts(METRIC, j) && Accepts(SchemaOf(MetricItem), j)
  {
    hide Accepts, Get, Same, Build, FileRef, ParseItems, Proper;
    var slots := [Copy(j, "label"), Copy(j, "value"), Copy(j, "hint"), Copy(j, "severity")];
    assert slots[0].key == "label" && slots[1].key == "value" && slots[2].key == "hint" && slots[3].key == "severity";
    if Get(j, "label").Some? { TextFitsSchema(Get(j, "label").value, 1); }
    TextOrNumberFits(Get(j, "value").value);
    if Get(j, "hint").Some? { TextFitsSchema(Get(j, "hint").value, 0); }
    if Get(j, "severity").Some? { PlainName(SEVERITY_NAMES, j, "severity"); }
    forall k | Get(j, k).Some? ensures k in METRIC.properties && Accepts(METRIC.properties[k], Get(j, k).value) {
      var i := ShownKey(slots, j, k);
    }
    ProperIsValid(j);
    ObjectFits(METRIC, j);
  }

  lemma CardFits(j: Json)
    requires Proper(j) && ParseItem(CardItem, j).Some? && Same(ParseItem(CardItem, j).value, j)
    ensures Accepts(CARD, j) && Accepts(SchemaOf(CardItem), j)
  {
    hide Accepts, Get, Same, Build, FileRef, ParseItems, Proper;
    var slots := [Copy(j, "title"), Copy(j, "body"), Copy(j, "badge"), Copy(j, "severity"), RefSlot(j)];
    assert slots[0].key == "title" && slots[1].key == "body" && slots[2].key == "badge" && slots[3].key == "severity" && slots[4].key == "ref";
    if Get(j, "title").Some? { TextFitsSchema(Get(j, "title").value, 1); }
    if Get(j, "body").Some? { TextFitsSchema(Get(j, "body").value, 0); }
    if Get(j, "badge").Some? { TextFitsSchema(Get(j, "badge").value, 0); }
    if Get(j, "severity").Some? { PlainName(SEVERITY_NAMES, j, "severity"); }
    if Get(j, "ref").Some? { RefFits(slots, 4, j); }
    forall k | Get(j, k).Some? ensures k in CARD.properties && Accepts(CARD.properties[k], Get(j, k).value) {
      var i := ShownKey(slots, j, k);
    }
    ProperIsValid(j);
    ObjectFits(CARD, j);
  }

  lemma ActionFits(j: Json)
    requires Proper(j) && ParseItem(ActionItem, j).Some? && Same(ParseItem(ActionItem, j).value, j)
    ensures Accepts(ACTION, j) && Accepts(SchemaOf(ActionItem), j)
  {
    hide Accepts, Get, Same, Build, FileRef, ParseItems, Proper;
    var slots := [Copy(j, "id"), Copy(j, "label"), Copy(j, "description"), Copy(j, "recommended"), Copy(j, "variant")];
    assert slots[0].key == "id" && slots[1].key == "label" && slots[2].key == "description" && slots[3].key == "recommended" && slots[4].key == "variant";
    if Get(j, "id").Some? { TextFitsSchema(Get(j, "id").value, 1); }
    if Get(j, "label").Some? { TextFitsSchema(Get(j, "label").value, 1); }
    if Get(j, "description").Some? { TextFitsSchema(Get(j, "description").value, 0); }
    if Get(j, "recommended").Some? { FlagFits(Get(j, "recommended").value); }
    if Get(j, "variant").Some? { PlainName(VARIANTS, j, "variant"); }
    forall k | Get(j, k).Some? ensures k in ACTION.properties && Accepts(ACTION.properties[k], Get(j, k).value) {
      var i := ShownKey(slots, j, k);
    }
    ProperIsValid(j);
    ObjectFits(ACTION, j);
  }

  lemma SeriesFits(j: Json)
    requires Proper(j) && ParseItem(SeriesItem, j).Some? && Same(ParseItem(SeriesItem, j).value, j)
    ensures Accepts(SERIES, j) && Accepts(SchemaOf(SeriesItem), j)
    decreases j, 2
  {
    hide Accepts, Get, Same, Build, FileRef, ParseItems, Proper;
    var slots := [Copy(j, "name"), List("points", ParseItems(PointItem, Get(j, "points").value))];
    assert slots[0].key == "name" && slots[1].key == "points";
    if Get(j, "name").Some? { TextFitsSchema(Get(j, "name").value, 1); }
    var points := Get(j, "points").value;
    var shown := ShownKey(slots, j, "points");
    ProperField(j, "points");
    ItemsFitAll(PointItem, points);
    ListFits(POINT, Some(1), Some(200), points);
    forall k | Get(j, k).Some? ensures k in SERIES.properties && Accepts(SERIES.properties[k], Get(j, k).value) {
      var i := ShownKey(slots, j, k);
    }
    ProperIsValid(j);
    ObjectFits(SERIES, j);
  }

  lemma ItemFits(kind: Item, j: Json)
    requires Proper(j) && ParseItem(kind, j).Some? && Same(ParseItem(kind, j).value, j)
    ensures Accepts(SchemaOf(kind), j)
    decreases j, 3
  {
    hide Accepts, ParseItem, Same, Proper, SchemaOf;
    match kind {
      case ColumnItem => ColumnFits(j);
      case RowItem => RowFits(j);
      case PointItem => PointFits(j);
      case SeriesItem => SeriesFits(j);
      case FindingItem => FindingFits(j);
      case NodeItem => NodeFits(j);
      case MetricItem => MetricFits(j);
      case CardItem => CardFits(j);
      case ActionItem => ActionFits(j);
    }
  }

  /** The parses of the first `n` items. */
  lemma {:induction false} ParsedFirst(kind: Item, list: Json, n: nat, i: nat)
    requires list.Arr? && i < n <= |list.items| && ParseFirst(kind, list, n).Some?
    ensures ParseItem(kind, list.items[i]) == Some(ParseFirst(kind, list, n).value[i])
  {
    hide ParseItem;
    if i < n - 1 { ParsedFirst(kind, list, n - 1, i); }
  }

  /** A list that parses to itself holds accepted items only. */
  lemma ItemsFitAll(kind: Item, list: Json)
    requires list.Arr? && Proper(list) && ParseItems(kind, list).Some? && Same(Arr(ParseItems(kind, list).value), list)
    ensures forall i :: 0 <= i < |list.items| ==> Accepts(SchemaOf(kind), list.items[i])
    decreases list, 1
  {
    hide Accepts, ParseFirst, ParseItem, Proper, SchemaOf;
    forall i | 0 <= i < |list.items| ensures Accepts(SchemaOf(kind), list.items[i]) {
      ParsedFirst(kind, list, |list.items|, i);
      ProperItem(list, i);
      ItemFits(kind, list.items[i]);
    }
  }

  // ----- views -----

  /** A list slot that shows the input holds accepted items only. */
  lemma ListShown(slots: seq<Slot>, i: nat, j: Json, key: string, kind: Item)
    requires Proper(j) && j.Obj? && Get(j, key).Some? && Get(j, key).value.Arr?
    requires ParseItems(kind, Get(j, key).value).Some? && Same(Build(slots), j)
    requires i < |slots| && slots[i] == List(key, ParseItems(kind, Get(j, key).value))
    requires forall m :: 0 <= m < |slots| && m != i ==> slots[m].key != key
    ensures forall n :: 0 <= n < |Get(j, key).value.items| ==> Accepts(SchemaOf(kind), Get(j, key).value.items[n])
  {
    hide Accepts, Get, Same, Build, ParseItems, Proper, SchemaOf;
    var shown := ShownKey(slots, j, key);
    ProperField(j, key);
    ItemsFitAll(kind, Get(j, key).value);
  }

  lemma TableFits(j: Json)
    requires Proper(j) && Get(j, "kind") == Some(Str("table")) && TableView(j).Some? && Same(TableView(j).value, j)
    ensures Accepts(TABLE, j)
  {
    hide Accepts, Get, Same, Build, ParseItems, Proper;
    var slots := [Copy(j, "kind"), Copy(j, "title"), List("columns", ParseItems(ColumnItem, Get(j, "columns").value)), List("rows", ParseItems(RowItem, Get(j, "rows").value))];
    assert slots[0].key == "kind" && slots[1].key == "title" && slots[2].key == "columns" && slots[3].key == "rows";
    ItIsObject(slots, j);
    KindFits("table", Get(j, "kind").value);
    if Get(j, "title").Some? { TextFitsSchema(Get(j, "title").value, 0); }
    ListShown(slots, 2, j, "columns", ColumnItem);
    ListFits(COLUMN, Some(1), Some(8), Get(j, "columns").value);
    ListShown(slots, 3, j, "rows", RowItem);
    ListFits(ROW, None, Some(200), Get(j, "rows").value);
    forall k | Get(j, k).Some? ensures k in TABLE.properties && Accepts(TABLE.properties[k], Get(j, k).value) {
      var i := ShownKey(slots, j, k);
    }
    ProperIsValid(j);
    ObjectFits(TABLE, j);
  }

  lemma ChartFieldFits(j: Json, k: string)
    requires k == "kind" || k == "title" || k == "chart" || k == "xLabel" || k == "yLabel" || k == "series"
    requires Get(j, k).Some? && (k == "kind" ==> Accepts(KindIs("chart"), Get(j, k).value))
    requires k == "title" || k == "xLabel" || k == "yLabel" ==> Accepts(TEXT, Get(j, k).value)
    requires k == "chart" ==> Accepts(OneOf([Str("bar"), Str("line"), Str("area")]), Get(j, k).value)
    requires k == "series" ==> Accepts(ListOf(SERIES, Some(1), Some(5)), Get(j, k).value)
    ensures k in CHART.properties && Accepts(CHART.properties[k], Get(j, k).value)
  {
    hide Accepts, Get;
  }

  lemma ChartKeys(slots: seq<Slot>, j: Json, k: string)
    requires |slots| == 6 && slots[0].key == "kind" && slots[1].key == "title" && slots[2].key == "chart"
    requires slots[3].key == "xLabel" && slots[4].key == "yLabel" && slots[5].key == "series"
    requires Same(Build(slots), j) && j.Obj? && Get(j, k).Some?
    ensures k == "kind" || k == "title" || k == "chart" || k == "xLabel" || k == "yLabel" || k == "series"
  {
    hide Get, Same, Build;
    var i := ShownKey(slots, j, k);
  }

  lemma ChartFits(j: Json)
    requires Proper(j) && Get(j, "kind") == Some(Str("chart")) && ChartView(j).Some? && Same(ChartView(j).value, j)
    ensures Accepts(CHART, j)
  {
    hide Accepts, Get, Same, Build, ParseItems, Proper;
    var slots := [Copy(j, "kind"), Copy(j, "title"), Copy(j, "chart"), Copy(j, "xLabel"), Copy(j, "yLabel"),
                  List("series", ParseItems(SeriesItem, Get(j, "series").value))];
    ItIsObject(slots, j);
    KindFits("chart", Get(j, "kind").value);
    if Get(j, "title").Some? { TextFitsSchema(Get(j, "title").value, 0); }
    if Get(j, "xLabel").Some? { TextFitsSchema(Get(j, "xLabel").value, 0); }
    if Get(j, "yLabel").Some? { TextFitsSchema(Get(j, "yLabel").value, 0); }
    NameFits([Str("bar"), Str("line"), Str("area")], Get(j, "chart").value);
    ListShown(slots, 5, j, "series", SeriesItem);
    ListFits(SERIES, Some(1), Some(5), Get(j, "series").value);
    forall k | Get(j, k).Some? ensures k in CHART.properties && Accepts(CHART.properties[k], Get(j, k).value) {
      ChartKeys(slots, j, k);
      ChartFieldFits(j, k);
    }
    ProperIsValid(j);
    ObjectFits(CHART, j);
  }

  lemma DiffFits(j: Json)
    requires Proper(j) && Get(j, "kind") == Some(Str("diff")) && DiffView(j).Some? && Same(DiffView(j).value, j)
    ensures Accepts(DIFF, j)
  {
    hide Accepts, Get, Same, Build, ParseItems, Proper;
    var slots := [Copy(j, "kind"), Copy(j, "title"), Copy(j, "path"), Copy(j, "patch"), Copy(j, "before"), Copy(j, "after")];
    assert slots[0].key == "kind" && slots[1].key == "title" && slots[2].key == "path" && slots[3].key == "patch" && slots[4].key == "before" && slots[5].key == "after";
    ItIsObject(slots, j);
    KindFits("diff", Get(j, "kind").value);
    if Get(j, "title").Some? { TextFitsSchema(Get(j, "title").value, 0); }
    if Get(j, "path").Some? { TextFitsSchema(Get(j, "path").value, 0); }
    if Get(j, "patch").Some? { TextFitsSchema(Get(j, "patch").value, 0); }
    if Get(j, "before").Some? { TextFitsSchema(Get(j, "before").value, 0); }
    if Get(j, "after").Some? { TextFitsSchema(Get(j, "after").value, 0); }
    forall k | Get(j, k).Some? ensures k in DIFF.properties && Accepts(DIFF.properties[k], Get(j, k).value) {
      var i := ShownKey(slots, j, k);
    }
    ProperIsValid(j);
    ObjectFits(DIFF, j);
  }

  lemma FindingsFit(j: Json)
    requires Proper(j) && Get(j, "kind") == Some(Str("findings")) && ListView(j, "items", FindingItem, 0, 100).Some? && Same(ListView(j, "items", FindingItem, 0, 100).value, j)
    ensures Accepts(FINDINGS, j)
  {
    hide Accepts, Get, Same, Build, ParseItems, Proper;
    var slots := [Copy(j, "kind"), Copy(j, "title"), List("items", ParseItems(FindingItem, Get(j, "items").value))];
    assert slots[0].key == "kind" && slots[1].key == "title" && slots[2].key == "items";
    ItIsObject(slots, j);
    KindFits("findings", Get(j, "kind").value);
    if Get(j, "title").Some? { TextFitsSchema(Get(j, "title").value, 0); }
    ListShown(slots, 2, j, "items", FindingItem);
    ListFits(FINDING, None, Some(100), Get(j, "items").value);
    forall k | Get(j, k).Some? ensures k in FINDINGS.properties && Accepts(FINDINGS.properties[k], Get(j, k).value) {
      var i := ShownKey(slots, j, k);
    }
    ProperIsValid(j);
    ObjectFits(FINDINGS, j);
  }

  lemma TreeFits(j: Json)
    requires Proper(j) && Get(j, "kind") == Some(Str("tree")) && ListView(j, "nodes", NodeItem, 0, 300).Some? && Same(ListView(j, "nodes", NodeItem, 0, 300).value, j)
    ensures Accepts(TREE, j)
  {
    hide Accepts, Get, Same, Build, ParseItems, Proper;
    var slots := [Copy(j, "kind"), Copy(j, "title"), List("nodes", ParseItems(NodeItem, Get(j, "nodes").value))];
    assert slots[0].key == "kind" && slots[1].key == "title" && slots[2].key == "nodes";
    ItIsObject(slots, j);
    KindFits("tree", Get(j, "kind").value);
    if Get(j, "title").Some? { TextFitsSchema(Get(j, "title").value, 0); }
    ListShown(slots, 2, j, "nodes", NodeItem);
    ListFits(TREE_NODE, None, Some(300), Get(j, "nodes").value);
    forall k | Get(j, k).Some? ensures k in TREE.properties && Accepts(TREE.properties[k], Get(j, k).value) {
      var i := ShownKey(slots, j, k);
    }
    ProperIsValid(j);
    ObjectFits(TREE, j);
  }

  lemma MetricsFit(j: Json)
    requires Proper(j) && Get(j, "kind") == Some(Str("metrics")) && ListView(j, "items", MetricItem, 1, 8).Some? && Same(ListView(j, "items", MetricItem, 1, 8).value, j)
    ensures Accepts(METRICS, j)
  {
    hide Accepts, Get, Same, Build, ParseItems, Proper;
    var slots := [Copy(j, "kind"), Copy(j, "title"), List("items", ParseItems(MetricItem, Get(j, "items").value))];
    assert slots[0].key == "kind" && slots[1].key == "title" && slots[2].key == "items";
    ItIsObject(slots, j);
    KindFits("metrics", Get(j, "kind").value);
    if Get(j, "title").Some? { TextFitsSchema(Get(j, "title").value, 0); }
    ListShown(slots, 2, j, "items", MetricItem);
    ListFits(METRIC, Some(1), Some(8), Get(j, "items").value);
    forall k | Get(j, k).Some? ensures k in METRICS.properties && Accepts(METRICS.properties[k], Get(j, k).value) {
      var i := ShownKey(slots, j, k);
    }
    ProperIsValid(j);
    ObjectFits(METRICS, j);
  }

  lemma CardsFit(j: Json)
    requires Proper(j) && Get(j, "kind") == Some(Str("cards")) && ListView(j, "items", CardItem, 0, 30).Some? && Same(ListView(j, "items", CardItem, 0, 30).value, j)
    ensures Accepts(CARDS, j)
  {
    hide Accepts, Get, Same, Build, ParseItems, Proper;
    var slots := [Copy(j, "kind"), Copy(j, "title"), List("items", ParseItems(CardItem, Get(j, "items").value))];
    assert slots[0].key == "kind" && slots[1].key == "title" && slots[2].key == "items";
    ItIsObject(slots, j);
    KindFits("cards", Get(j, "kind").value);
    if Get(j, "title").Some? { TextFitsSchema(Get(j, "title").value, 0); }
    ListShown(slots, 2, j, "items", CardItem);
    ListFits(CARD, None, Some(30), Get(j, "items").value);
    forall k | Get(j, k).Some? ensures k in CARDS.properties && Accepts(CARDS.properties[k], Get(j, k).value) {
      var i := ShownKey(slots, j, k);
    }
    ProperIsValid(j);
    ObjectFits(CARDS, j);
  }

  lemma ViewFits(j: Json)
    requires Proper(j) && ParseView(j).Some? && Same(ParseView(j).value, j)
    ensures Accepts(VIEW, j)
  {
    hide Accepts, Get, Same, TableView, ChartView, DiffView, ListView, Proper;
    var kind := Get(j, "kind");
    var options := [TABLE, CHART, DIFF, FINDINGS, TREE, METRICS, CARDS];
    if kind == Some(Str("table")) { TableFits(j); EitherFits(options, 0, j); }
    else if kind == Some(Str("chart")) { ChartFits(j); EitherFits(options, 1, j); }
    else if kind == Some(Str("diff")) { DiffFits(j); EitherFits(options, 2, j); }
    else if kind == Some(Str("findings")) { FindingsFit(j); EitherFits(options, 3, j); }
    else if kind == Some(Str("tree")) { TreeFits(j); EitherFits(options, 4, j); }
    else if kind == Some(Str("metrics")) { MetricsFit(j); EitherFits(options, 5, j); }
    else { CardsFit(j); EitherFits(options, 6, j); }
  }

  // ----- what the schemas accept is unwrapped -----

  predicate NameKey(key: string) {
    key == "severity" || key == "variant"
  }

  /** A kind whose values have no parts. */
  predicate LeafKind(kind: string) {
    kind == "null" || kind == "string" || kind == "number" || kind == "integer" || kind == "boolean"
  }

  /** A schema that accepts only values without parts, alone or in alternatives. */
  predicate Leaf(s: Schema)
    decreases s
  {
    if s.anyOf.AnyOf? then forall i :: 0 <= i < |s.anyOf.options| ==> Leaf(s.anyOf.options[i])
    else LeafKind(s.kind) || (s.constant.Some? && s.constant.value.Str?)
  }

  /** A closed schema in which the properties for severities and variants are leaves. */
  predicate PlainNames(s: Schema)
    decreases s
  {
    || Leaf(s)
    || (s.anyOf.AnyOf? && forall i :: 0 <= i < |s.anyOf.options| ==> PlainNames(s.anyOf.options[i]))
    || (s.anyOf.Absent? && s.kind == "array" && s.items.Some? && PlainNames(s.items.value))
    || (s.anyOf.Absent? && s.kind == "object" && ClosedNames(s))
  }

  predicate ClosedNames(s: Schema)
    decreases s, 0
  {
    && (forall k :: k in s.properties ==> PlainNames(s.properties[k]) && (NameKey(k) ==> Leaf(s.properties[k])))
    && (s.additional.Nothing? || (s.additional.Each? && Leaf(s.additional.schema)))
  }

  lemma {:induction false} LeafHasNoParts(s: Schema, j: Json)
    requires Leaf(s) && Accepts(s, j)
    ensures Width(j) == 0 && !j.Arr? && !j.Obj?
    decreases s
  {
    if s.anyOf.AnyOf? {
      var i :| 0 <= i < |s.anyOf.options| && Accepts(s.anyOf.options[i], j);
      LeafHasNoParts(s.anyOf.options[i], j);
    }
  }

  /** Whatever such a schema accepts has its names unwrapped, all the way down. */
  lemma {:induction false} AcceptedUnwrapped(s: Schema, j: Json)
    requires PlainNames(s) && Accepts(s, j)
    ensures Unwrapped(j)
    decreases s
  {
    if Leaf(s) {
      LeafHasNoParts(s, j);
    } else if s.anyOf.AnyOf? {
      var i :| 0 <= i < |s.anyOf.options| && Accepts(s.anyOf.options[i], j);
      AcceptedUnwrapped(s.anyOf.options[i], j);
    } else if s.kind == "array" {
      forall i | 0 <= i < Width(j) ensures Unwrapped(Child(j, i)) { AcceptedUnwrapped(s.items.value, j.items[i]); }
    } else {
      forall i | 0 <= i < |j.fields| ensures Unwrapped(j.fields[i].value) { FieldUnwrapped(s, j, i); }
      if Get(j, "severity").Some? { NameUnwrapped(s, j, "severity"); }
      if Get(j, "variant").Some? { NameUnwrapped(s, j, "variant"); }
    }
  }

  lemma FieldUnwrapped(s: Schema, j: Json, i: nat)
    requires ClosedNames(s) && s.anyOf.Absent? && s.kind == "object" && Accepts(s, j) && i < |j.fields|
    ensures Unwrapped(j.fields[i].value)
    decreases s, 0
  {
    var f := j.fields[i];
    if f.key in s.properties {
      AcceptedUnwrapped(s.properties[f.key], f.value);
    } else {
      LeafHasNoParts(s.additional.schema, f.value);
    }
  }

  lemma NameUnwrapped(s: Schema, j: Json, key: string)
    requires ClosedNames(s) && s.anyOf.Absent? && s.kind == "object" && Accepts(s, j) && NameKey(key) && Get(j, key).Some?
    ensures !Get(j, key).value.Arr?
  {
    var f := j.fields[FindKey(j.fields, key).value];
    if key in s.properties { LeafHasNoParts(s.properties[key], f.value); } else { LeafHasNoParts(s.additional.schema, f.value); }
  }

  lemma LeafChoices()
    ensures Leaf(Either([TEXT, NUMBER])) && Leaf(Either([TEXT, NUMBER, FLAG]))
  {
    assert Leaf(TEXT) && Leaf(NUMBER) && Leaf(FLAG);
    assert forall i :: 0 <= i < |[TEXT, NUMBER, FLAG]| ==> Leaf([TEXT, NUMBER, FLAG][i]);
  }

  lemma PlainList(items: Schema, least: Option<nat>, most: Option<nat>)
    requires PlainNames(items)
    ensures PlainNames(ListOf(items, least, most))
  {
  }

  lemma PlainObject(properties: map<string, Schema>, required: seq<string>)
    requires forall k :: k in properties ==> PlainNames(properties[k]) && (NameKey(k) ==> Leaf(properties[k]))
    ensures PlainNames(ObjectOf(properties, required))
  {
    hide NameKey;
    assert ClosedNames(ObjectOf(properties, required));
  }

  lemma PlainParts()
    ensures PlainNames(FILE_REF) && PlainNames(COLUMN) && PlainNames(POINT) && PlainNames(CELLS)
  {
    LeafChoices();
    assert ClosedNames(CELLS);
    PlainObject(FILE_REF.properties, FILE_REF.required);
    PlainObject(COLUMN.properties, COLUMN.required);
    PlainObject(POINT.properties, POINT.required);
  }

  lemma LeavesArePlain()
    ensures forall s :: Leaf(s) ==> PlainNames(s)
    ensures Leaf(TEXT) && Leaf(NON_EMPTY) && Leaf(FLAG) && Leaf(SEVERITY) && Leaf(TREE_NODE.properties["depth"])
  {
  }

  lemma PlainRow()
    ensures PlainNames(ROW)
  {
    hide PlainNames, Leaf;
    LeafChoices();
    PlainParts();
    LeavesArePlain();
    PlainObject(ROW.properties, ROW.required);
  }

  lemma PlainSeries()
    ensures PlainNames(SERIES)
  {
    hide PlainNames, Leaf;
    LeafChoices();
    PlainParts();
    LeavesArePlain();
    PlainList(POINT, Some(1), Some(200));
    PlainObject(SERIES.properties, SERIES.required);
  }

  lemma PlainFinding()
    ensures PlainNames(FINDING)
  {
    hide PlainNames, Leaf;
    LeafChoices();
    PlainParts();
    LeavesArePlain();
    PlainObject(FINDING.properties, FINDING.required);
  }

  lemma PlainNode()
    ensures PlainNames(TREE_NODE)
  {
    hide PlainNames, Leaf;
    LeafChoices();
    PlainParts();
    LeavesArePlain();
    PlainObject(TREE_NODE.properties, TREE_NODE.required);
  }

  lemma PlainMetric()
    ensures PlainNames(METRIC)
  {
    hide PlainNames, Leaf;
    LeafChoices();
    PlainParts();
    LeavesArePlain();
    PlainObject(METRIC.properties, METRIC.required);
  }

  lemma PlainCard()
    ensures PlainNames(CARD)
  {
    hide PlainNames, Leaf;
    LeafChoices();
    PlainParts();
    LeavesArePlain();
    PlainObject(CARD.properties, CARD.required);
  }

  lemma PlainTable()
    ensures PlainNames(TABLE)
  {
    hide PlainNames;
    LeavesArePlain();
    PlainRow();
    PlainList(ROW, None, Some(200));
    PlainParts();
    PlainList(COLUMN, Some(1), Some(8));
    PlainObject(TABLE.properties, TABLE.required);
  }

  lemma PlainChart()
    ensures PlainNames(CHART)
  {
    hide PlainNames;
    LeavesArePlain();
    PlainSeries();
    PlainList(SERIES, Some(1), Some(5));
    PlainObject(CHART.properties, CHART.required);
  }

  lemma PlainDiff()
    ensures PlainNames(DIFF)
  {
    hide PlainNames;
    LeavesArePlain();
    PlainObject(DIFF.properties, DIFF.required);
  }

  lemma PlainFindings()
    ensures PlainNames(FINDINGS)
  {
    hide PlainNames;
    LeavesArePlain();
    PlainFinding();
    PlainList(FINDING, None, Some(100));
    PlainObject(FINDINGS.properties, FINDINGS.required);
  }

  lemma PlainTree()
    ensures PlainNames(TREE)
  {
    hide PlainNames;
    LeavesArePlain();
    PlainNode();
    PlainList(TREE_NODE, None, Some(300));
    PlainObject(TREE.properties, TREE.required);
  }

  lemma PlainMetrics()
    ensures PlainNames(METRICS)
  {
    hide PlainNames;
    LeavesArePlain();
    PlainMetric();
    PlainList(METRIC, Some(1), Some(8));
    PlainObject(METRICS.properties, METRICS.required);
  }

  lemma PlainCards()
    ensures PlainNames(CARDS)
  {
    hide PlainNames;
    LeavesArePlain();
    PlainCard();
    PlainList(CARD, None, Some(30));
    PlainObject(CARDS.properties, CARDS.required);
  }

  lemma PlainEither(options: seq<Schema>)
    requires forall i :: 0 <= i < |options| ==> PlainNames(options[i])
    ensures PlainNames(Either(options))
  {
  }

  lemma PlainView()
    ensures PlainNames(VIEW)
  {
    hide PlainNames;
    PlainTable();
    PlainChart();
    PlainDiff();
    PlainFindings();
    PlainTree();
    PlainMetrics();
    PlainCards();
    PlainEither([TABLE, CHART, DIFF, FINDINGS, TREE, METRICS, CARDS]);
  }

  lemma PlainShowUi()
    ensures PlainNames(SHOW_UI)
  {
    hide PlainNames;
    PlainView();
    PlainObject(SHOW_UI.properties, SHOW_UI.required);
  }

  lemma PlainActions()
    ensures PlainNames(ListOf(ACTION, Some(1), Some(5)))
  {
    hide PlainNames;
    LeavesArePlain();
    PlainObject(ACTION.properties, ACTION.required);
    PlainList(ACTION, Some(1), Some(5));
  }

  lemma PlainAskUi()
    ensures PlainNames(ASK_UI)
  {
    hide PlainNames, Leaf;
    PlainView();
    PlainActions();
    LeavesArePlain();
    PlainObject(ASK_UI.properties, ASK_UI.required);
  }

  /**
   Validation accepts exactly the views that the parser passes through unchanged and whose names
   are not wrapped in lists.
   */
  lemma ViewAcceptedIffUnchanged(j: Json)
    requires Valid(j)
    ensures Accepts(VIEW, j) <==> Unwrapped(j) && ParseView(j).Some? && Same(ParseView(j).value, j)
  {
    hide Accepts, ParseView, Same, Unwrapped, Valid;
    if Accepts(VIEW, j) {
      ViewAgrees(j);
      PlainView();
      AcceptedUnwrapped(VIEW, j);
    }
    if Unwrapped(j) && ParseView(j).Some? && Same(ParseView(j).value, j) { ViewFits(j); }
  }

  lemma ShowUiFits(j: Json)
    requires Proper(j) && ParseShowUi(j).Some? && Same(ParseShowUi(j).value, j)
    ensures Accepts(SHOW_UI, j)
  {
    hide Accepts, ParseView, Same, Proper, Build, Get;
    var slots := [Slot("view", ParseView(Get(j, "view").value))];
    assert slots[0].key == "view";
    ItIsObject(slots, j);
    var shown := ShownKey(slots, j, "view");
    ProperField(j, "view");
    ViewFits(Get(j, "view").value);
    forall k | Get(j, k).Some? ensures k in SHOW_UI.properties && Accepts(SHOW_UI.properties[k], Get(j, k).value) {
      var i := ShownKey(slots, j, k);
    }
    ProperIsValid(j);
    ObjectFits(SHOW_UI, j);
  }

  /** The same for whole `show_ui` inputs. */
  lemma ShowUiAcceptedIffUnchanged(j: Json)
    requires Valid(j)
    ensures Validate(SHOW_UI, j, []) == [] <==> Unwrapped(j) && ParseShowUi(j).Some? && Same(ParseShowUi(j).value, j)
  {
    hide Accepts, ParseShowUi, Same, Unwrapped, Valid, Validate;
    Schemas.ValidateIffAccepts(SHOW_UI, j, []);
    if Validate(SHOW_UI, j, []) == [] {
      ShowUiAgrees(j);
      PlainShowUi();
      AcceptedUnwrapped(SHOW_UI, j);
    }
    if Unwrapped(j) && ParseShowUi(j).Some? && Same(ParseShowUi(j).value, j) { ShowUiFits(j); }
  }

  lemma {:induction false} ActionCount(list: Json, n: nat)
    requires list.Arr? && n <= |list.items|
    ensures |Actions(list, n)| <= n
  {
    hide ParseItem;
    if n > 0 { ActionCount(list, n - 1); }
  }

  /** When no action was dropped, every action parsed. */
  lemma {:induction false} NoneDropped(list: Json, n: nat)
    requires list.Arr? && n <= |list.items| && |Actions(list, n)| == n
    ensures forall i :: 0 <= i < n ==> ParseItem(ActionItem, list.items[i]) == Some(Actions(list, n)[i])
  {
    hide ParseItem;
    if n > 0 {
      ActionCount(list, n - 1);
      NoneDropped(list, n - 1);
    }
  }

  lemma ActionsFit(list: Json)
    requires list.Arr? && Proper(list) && Same(Arr(Actions(list, |list.items|)), list) && 1 <= |list.items| <= 5
    ensures Accepts(ListOf(ACTION, Some(1), Some(5)), list)
  {
    hide Accepts, ParseItem, Proper, Actions;
    NoneDropped(list, |list.items|);
    forall i | 0 <= i < |list.items| ensures Accepts(ACTION, list.items[i]) {
      ProperItem(list, i);
      ActionFits(list.items[i]);
    }
    ListFits(ACTION, Some(1), Some(5), list);
  }

  /** What the parser of `ask_ui` does not look at: the kind of `selectable`, and more than five actions. */
  predicate AskBounds(j: Json) {
    OptionalFlag(Get(j, "selectable")) && ListWithin(Get(j, "actions"), 1, 5)
  }

  /** The slots the parser fills for an `ask_ui` input. */
  function AskSlotsOf(j: Json): seq<Slot>
    requires Get(j, "view").Some? && Get(j, "actions").Some? && Get(j, "actions").value.Arr?
  {
    var list := Get(j, "actions").value;
    var question, note := Get(j, "question"), Get(j, "allowNote");
    [Slot("view", ParseView(Get(j, "view").value)), Slot("actions", Some(Arr(Actions(list, |list.items|)))),
     Slot("question", Kept(question, OptionalText(question))), Slot("allowNote", Kept(note, OptionalFlag(note))),
     Slot("selectable", Some(Bool(Get(j, "selectable") == Some(Bool(true)))))]
  }

  lemma AskParsed(j: Json)
    requires ParseAskUi(j).Some? && AskBounds(j)
    ensures Get(j, "view").Some? && ParseView(Get(j, "view").value).Some? && Get(j, "actions").Some? && Get(j, "actions").value.Arr?
    ensures ParseAskUi(j) == Some(Build(AskSlotsOf(j)))
    ensures var slots := AskSlotsOf(j);
      |slots| == 5 && slots[0].key == "view" && slots[1].key == "actions" && slots[2].key == "question" &&
      slots[3].key == "allowNote" && slots[4].key == "selectable"
  {
    hide Get, ParseView, Actions, Build, Kept;
  }

  lemma OnlyAskKeys(j: Json, slots: seq<Slot>)
    requires |slots| == 5 && slots[0].key == "view" && slots[1].key == "actions" && slots[2].key == "question"
    requires slots[3].key == "allowNote" && slots[4].key == "selectable"
    requires SameButSelectable(Build(slots), j)
    ensures forall k :: Get(j, k).Some? ==> AskKey(k)
  {
    hide Get, Same, FieldsOf, FirstFilled;
    forall k | Get(j, k).Some? ensures AskKey(k) {
      if k != "selectable" {
        BuiltFields(slots, k);
        var i :| 0 <= i < |slots| && slots[i] == Slot(k, Get(Build(slots), k));
      }
    }
  }

  lemma AskFits(j: Json)
    requires Proper(j) && AskBounds(j) && ParseAskUi(j).Some? && SameButSelectable(ParseAskUi(j).value, j)
    ensures AskParts(j) && Accepts(ASK_UI, j)
  {
    hide Accepts, ParseView, Same, Proper, Get, Build, Actions, ParseAskUi, SameButSelectable, AskKey;
    AskParsed(j);
    var slots := AskSlotsOf(j);
    OnlyAskKeys(j, slots);
    AskShown(slots, j, "view", 0);
    AskShown(slots, j, "actions", 1);
    ProperField(j, "view");
    ProperField(j, "actions");
    ViewFits(Get(j, "view").value);
    ActionsFit(Get(j, "actions").value);
    if Get(j, "question").Some? { AskShown(slots, j, "question", 2); }
    if Get(j, "allowNote").Some? { AskShown(slots, j, "allowNote", 3); }
    AskIsObject(slots, j);
    AskPartsAccepted(j);
  }

  lemma AskIsObject(slots: seq<Slot>, j: Json)
    requires SameButSelectable(Build(slots), j)
    ensures j.Obj?
  {
  }

  /** The slot that shows a key of an `ask_ui` input, when it is the only one of that key. */
  lemma AskShown(slots: seq<Slot>, j: Json, k: string, n: nat)
    requires SameButSelectable(Build(slots), j) && k != "selectable" && Get(j, k).Some?
    requires n < |slots| && forall m :: 0 <= m < |slots| && m != n ==> slots[m].key != k
    ensures slots[n].value.Some? && Same(slots[n].value.value, Get(j, k).value)
  {
    hide Get, Same, FieldsOf, FirstFilled;
    BuiltFields(slots, k);
    var i :| 0 <= i < |slots| && slots[i] == Slot(k, Get(Build(slots), k));
  }

  lemma AskFieldFits(j: Json, k: string)
    requires AskParts(j) && AskBounds(j) && Get(j, k).Some?
    ensures k in ASK_UI.properties && Accepts(ASK_UI.properties[k], Get(j, k).value)
  {
    hide Accepts, Get;
    assert AskKey(k);
    if k == "question" {
      TextFitsSchema(Get(j, k).value, 0);
    } else if k == "allowNote" || k == "selectable" {
      FlagFits(Get(j, k).value);
    }
  }

  lemma AskPartsAccepted(j: Json)
    requires Proper(j) && AskParts(j) && AskBounds(j)
    ensures Accepts(ASK_UI, j)
  {
    hide Accepts, Get, Proper, AskKey;
    ProperIsValid(j);
    forall k | Get(j, k).Some? ensures k in ASK_UI.properties && Accepts(ASK_UI.properties[k], Get(j, k).value) {
      AskFieldFits(j, k);
    }
    ObjectFits(ASK_UI, j);
  }

  lemma AskAcceptedBounds(j: Json)
    requires Accepts(ASK_UI, j)
    ensures AskBounds(j)
  {
    hide Accepts, Get;
    ObjectAccepted(ASK_UI, j);
    assert "actions" in ASK_UI.required;
    ListAccepted(ACTION, Some(1), Some(5), Get(j, "actions").value);
    SomeFlag(j, "selectable");
  }

  /**
   Validation accepts exactly the `ask_ui` inputs that the parser passes through unchanged but for
   the `selectable` flag, with names not wrapped in lists, at most five actions and a `selectable`
   that is a flag if present.
   */
  lemma AskUiAcceptedIffUnchanged(j: Json)
    requires Valid(j)
    ensures Validate(ASK_UI, j, []) == [] <==>
      Unwrapped(j) && AskBounds(j) && ParseAskUi(j).Some? && SameButSelectable(ParseAskUi(j).value, j)
  {
    hide Accepts, Unwrapped, Valid, Validate, AskBounds, ParseAskUi, SameButSelectable, AskParts;
    Schemas.ValidateIffAccepts(ASK_UI, j, []);
    if Accepts(ASK_UI, j) {
      AskUiAgrees(j);
      AskAcceptedBounds(j);
      PlainAskUi();
      AcceptedUnwrapped(ASK_UI, j);
    }
    if Unwrapped(j) && AskBounds(j) && ParseAskUi(j).Some? && SameButSelectable(ParseAskUi(j).value, j) { AskFits(j); }
  }
}
