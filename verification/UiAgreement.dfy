/**
 Every input the schemas accept is parsed, and the parsed value is the input again, up to the
 order of fields.
 */
module UiAgreement {
  import opened Wrappers
  import opened JsonModel
  import opened SchemaModel
  import Schemas = SchemaSafety
  import opened UiModel

  /** The same JSON value, whatever the order of the fields of objects. */
  ghost predicate Same(a: Json, b: Json)
    decreases a
  {
    match a
    case Arr(items) =>
      b.Arr? && |items| == |b.items| && forall i :: 0 <= i < |items| ==> Same(items[i], b.items[i])
    case Obj(_) =>
      b.Obj? && forall k :: (Get(a, k).Some? <==> Get(b, k).Some?) && (Get(a, k).Some? ==> Same(Get(a, k).value, Get(b, k).value))
    case _ => a == b
  }

  lemma {:induction false} SameSelf(j: Json)
    ensures Same(j, j)
    decreases j
  {
    hide Get;
    if j.Arr? {
      forall i | 0 <= i < |j.items| ensures Same(j.items[i], j.items[i]) { SameSelf(j.items[i]); }
    } else if j.Obj? {
      forall k | Get(j, k).Some? ensures Same(Get(j, k).value, Get(j, k).value) { SameSelf(Get(j, k).value); }
    }
  }

  /** The slot shows what the input shows under its key. */
  ghost predicate Shows(slot: Slot, raw: Json) {
    && (slot.value.Some? <==> Get(raw, slot.key).Some?)
    && (slot.value.Some? ==> Same(slot.value.value, Get(raw, slot.key).value))
  }

  lemma CopyShows(raw: Json, key: string)
    ensures Shows(Copy(raw, key), raw)
  {
    hide Get;
    if Get(raw, key).Some? { SameSelf(Get(raw, key).value); }
  }

  /** A built object shows under a key exactly what the first filled slot of that key holds. */
  function FirstFilled(slots: seq<Slot>, key: string): (r: Option<Json>)
    ensures r.Some? ==> exists i :: 0 <= i < |slots| && slots[i] == Slot(key, r)
    ensures r.None? ==> forall i :: 0 <= i < |slots| && slots[i].key == key ==> slots[i].value.None?
  {
    if slots == [] then None
    else if slots[0].key == key && slots[0].value.Some? then slots[0].value
    else
      var r := FirstFilled(slots[1..], key);
      assert r.Some? ==> exists i :: 0 <= i < |slots[1..]| && slots[1..][i] == Slot(key, r);
      assert forall i :: 0 < i < |slots| ==> slots[i] == slots[1..][i - 1];
      r
  }

  lemma {:induction false} BuiltFields(slots: seq<Slot>, key: string)
    ensures Get(Build(slots), key) == FirstFilled(slots, key)
  {
    if slots != [] {
      BuiltFields(slots[1..], key);
      var rest := FieldsOf(slots[1..]);
      if slots[0].value.Some? {
        FindKeyCons(Field(slots[0].key, slots[0].value.value), rest, key);
      } else {
        assert FieldsOf(slots) == rest;
      }
    }
  }

  lemma FindKeyCons(first: Field, rest: seq<Field>, key: string)
    ensures Get(Obj([first] + rest), key) == if first.key == key then Some(first.value) else Get(Obj(rest), key)
  {
    assert ([first] + rest)[1..] == rest;
  }

  /** A built object is the input when every slot shows the input and no field is left out. */
  lemma BuildSame(slots: seq<Slot>, raw: Json)
    requires raw.Obj?
    requires forall i :: 0 <= i < |slots| ==> Shows(slots[i], raw)
    requires forall k :: Get(raw, k).Some? ==> exists i :: 0 <= i < |slots| && slots[i].key == k
    ensures Same(Build(slots), raw)
  {
    hide Get, FieldsOf, FirstFilled;
    var built := Build(slots);
    forall k ensures Get(built, k).Some? <==> Get(raw, k).Some?
             ensures Get(built, k).Some? ==> Same(Get(built, k).value, Get(raw, k).value)
    {
      BuiltFields(slots, k);
      if Get(built, k).Some? {
        var i :| 0 <= i < |slots| && slots[i] == Slot(k, Get(built, k));
        assert Shows(slots[i], raw);
      }
      if Get(raw, k).Some? {
        var i :| 0 <= i < |slots| && slots[i].key == k;
        assert Shows(slots[i], raw);
      }
    }
  }

  // ----- what acceptance says of the parts -----

  lemma ObjectAccepted(s: Schema, j: Json)
    requires s.anyOf.Absent? && s.kind == "object" && Accepts(s, j)
    ensures j.Obj?
    ensures forall k :: k in s.required ==> Get(j, k).Some?
    ensures forall k :: Get(j, k).Some? && k in s.properties ==> Accepts(s.properties[k], Get(j, k).value)
    ensures s.additional.Nothing? ==> forall k :: Get(j, k).Some? ==> k in s.properties
    ensures s.additional.Each? ==>
      forall i :: 0 <= i < |j.fields| && j.fields[i].key !in s.properties ==> Accepts(s.additional.schema, j.fields[i].value)
  {
  }

  lemma TextAccepted(s: Schema, j: Json)
    requires s.anyOf.Absent? && s.kind == "string" && Accepts(s, j)
    ensures TextFits(s, j) && (s.enumeration.Some? ==> j in s.enumeration.value)
  {
  }

  lemma NumberAccepted(s: Schema, j: Json)
    requires s.anyOf.Absent? && (s.kind == "number" || s.kind == "integer") && Accepts(s, j)
    ensures NumberFits(s, j)
  {
  }

  lemma FlagAccepted(j: Json)
    requires Accepts(FLAG, j)
    ensures j.Bool?
  {
  }

  lemma TextOrNumberAccepted(j: Json)
    requires Accepts(Either([TEXT, NUMBER]), j)
    ensures j.Str? || j.Num?
  {
    hide Accepts;
    var i := AnyOfAccepted([TEXT, NUMBER], j);
    if i == 0 { TextAccepted(TEXT, j); } else { NumberAccepted(NUMBER, j); }
  }

  lemma AnyOfAccepted(options: seq<Schema>, j: Json) returns (i: nat)
    requires Accepts(Either(options), j)
    ensures i < |options| && Accepts(options[i], j)
  {
    i :| 0 <= i < |options| && Accepts(options[i], j);
  }

  lemma ListAccepted(items: Schema, least: Option<nat>, most: Option<nat>, j: Json)
    requires Accepts(ListOf(items, least, most), j)
    ensures j.Arr? && forall i :: 0 <= i < |j.items| ==> Accepts(items, j.items[i])
    ensures (least.Some? ==> least.value <= |j.items|) && (most.Some? ==> |j.items| <= most.value)
  {
  }

  // ----- items -----

  function SchemaOf(kind: Item): Schema {
    match kind
    case ColumnItem => COLUMN
    case RowItem => ROW
    case PointItem => POINT
    case SeriesItem => SERIES
    case FindingItem => FINDING
    case NodeItem => TREE_NODE
    case MetricItem => METRIC
    case CardItem => CARD
    case ActionItem => ACTION
  }

  /** The item parses, to itself. */
  ghost predicate Agrees(parsed: Option<Json>, j: Json) {
    parsed.Some? && Same(parsed.value, j)
  }

  lemma FileRefAgrees(j: Json)
    requires Accepts(FILE_REF, j)
    ensures Agrees(FileRef(j), j)
  {
    hide Accepts, Get, Same;
    ObjectAccepted(FILE_REF, j);
    assert "file" in FILE_REF.required;
    TextAccepted(TEXT, Get(j, "file").value);
    if Get(j, "line").Some? { NumberAccepted(POSITION, Get(j, "line").value); }
    if Get(j, "column").Some? { NumberAccepted(POSITION, Get(j, "column").value); }
    CopyShows(j, "file");
    CopyShows(j, "line");
    CopyShows(j, "column");
    var slots := [Copy(j, "file"), Copy(j, "line"), Copy(j, "column")];
    assert slots[0].key == "file" && slots[1].key == "line" && slots[2].key == "column";
    BuildSame(slots, j);
  }

  lemma RefShows(j: Json)
    requires Get(j, "ref").Some? ==> Accepts(FILE_REF, Get(j, "ref").value)
    ensures RefOk(j) && Shows(RefSlot(j), j)
  {
    hide Accepts, Get, Same, FileRef;
    if Get(j, "ref").Some? { FileRefAgrees(Get(j, "ref").value); }
  }

  lemma NonEmptyText(j: Json, key: string)
    requires Get(j, key).Some? && Accepts(NON_EMPTY, Get(j, key).value)
    ensures NonEmpty(Get(j, key))
  {
    hide Accepts, Get;
    TextAccepted(NON_EMPTY, Get(j, key).value);
  }

  lemma SomeText(j: Json, key: string)
    requires Get(j, key).Some? ==> Accepts(TEXT, Get(j, key).value)
    ensures OptionalText(Get(j, key))
  {
    hide Accepts, Get;
    if Get(j, key).Some? { TextAccepted(TEXT, Get(j, key).value); }
  }

  lemma SomeFlag(j: Json, key: string)
    requires Get(j, key).Some? ==> Accepts(FLAG, Get(j, key).value)
    ensures OptionalFlag(Get(j, key))
  {
    hide Accepts, Get;
    if Get(j, key).Some? { FlagAccepted(Get(j, key).value); }
  }

  lemma SomeName(names: seq<Json>, j: Json, key: string)
    requires Get(j, key).Some? ==> Accepts(OneOf(names), Get(j, key).value)
    ensures OptionalName(names, Get(j, key))
  {
    hide Accepts, Get;
    if Get(j, key).Some? { TextAccepted(OneOf(names), Get(j, key).value); }
  }

  lemma CopiesShow(raw: Json)
    ensures forall key :: Shows(Copy(raw, key), raw)
  {
    hide Get, Shows;
    forall key ensures Shows(Copy(raw, key), raw) { CopyShows(raw, key); }
  }

  lemma CellsAccepted(j: Json)
    requires Accepts(CELLS, j)
    ensures PlainCells(Some(j))
  {
    hide Accepts;
    ObjectAccepted(CELLS, j);
    forall i | 0 <= i < |j.fields| ensures j.fields[i].value.Str? || j.fields[i].value.Num? || j.fields[i].value.Bool? {
      CellAccepted(j.fields[i].value);
    }
  }

  lemma CellAccepted(j: Json)
    requires Accepts(Either([TEXT, NUMBER, FLAG]), j)
    ensures j.Str? || j.Num? || j.Bool?
  {
    hide Accepts;
    var i := AnyOfAccepted([TEXT, NUMBER, FLAG], j);
    if i == 0 { TextAccepted(TEXT, j); } else if i == 1 { NumberAccepted(NUMBER, j); } else { FlagAccepted(j); }
  }

  lemma ColumnAgrees(j: Json)
    requires Accepts(COLUMN, j)
    ensures Agrees(ParseItem(ColumnItem, j), j)
  {
    hide Accepts, Get, Same, Build, FileRef, ParseItems;
    ObjectAccepted(COLUMN, j);
    assert "key" in COLUMN.required && "label" in COLUMN.required;
    CopiesShow(j);
    NonEmptyText(j, "key");
    NonEmptyText(j, "label");
    SomeFlag(j, "mono");
    if Get(j, "align").Some? { TextAccepted(OneOf([Str("left"), Str("right")]), Get(j, "align").value); }
    var slots := [Copy(j, "key"), Copy(j, "label"), Copy(j, "align"), Copy(j, "mono")];
    assert slots[0].key == "key" && slots[1].key == "label" && slots[2].key == "align" && slots[3].key == "mono";
    BuildSame(slots, j);
  }

  lemma RowAgrees(j: Json)
    requires Accepts(ROW, j)
    ensures Agrees(ParseItem(RowItem, j), j)
  {
    hide Accepts, Get, Same, Build, FileRef, ParseItems;
    ObjectAccepted(ROW, j);
    assert "cells" in ROW.required;
    CopiesShow(j);
    CellsAccepted(Get(j, "cells").value);
    RefShows(j);
    var slots := [Copy(j, "cells"), RefSlot(j)];
    assert slots[0].key == "cells" && slots[1].key == "ref";
    BuildSame(slots, j);
  }

  lemma PointAgrees(j: Json)
    requires Accepts(POINT, j)
    ensures Agrees(ParseItem(PointItem, j), j)
  {
    hide Accepts, Get, Same, Build, FileRef, ParseItems;
    ObjectAccepted(POINT, j);
    assert "x" in POINT.required && "y" in POINT.required;
    CopiesShow(j);
    TextOrNumberAccepted(Get(j, "x").value);
    NumberAccepted(NUMBER, Get(j, "y").value);
    var slots := [Copy(j, "x"), Copy(j, "y")];
    assert slots[0].key == "x" && slots[1].key == "y";
    BuildSame(slots, j);
  }

  lemma FindingAgrees(j: Json)
    requires Accepts(FINDING, j)
    ensures Agrees(ParseItem(FindingItem, j), j)
  {
    hide Accepts, Get, Same, Build, FileRef, ParseItems;
    ObjectAccepted(FINDING, j);
    assert "severity" in FINDING.required && "message" in FINDING.required;
    CopiesShow(j);
    SomeName(SEVERITY_NAMES, j, "severity");
    NonEmptyText(j, "message");
    SomeText(j, "detail");
    RefShows(j);
    var slots := [Copy(j, "severity"), Copy(j, "message"), Copy(j, "detail"), RefSlot(j)];
    assert slots[0].key == "severity" && slots[1].key == "message" && slots[2].key == "detail" && slots[3].key == "ref";
    BuildSame(slots, j);
  }

  lemma NodeAgrees(j: Json)
    requires Accepts(TREE_NODE, j)
    ensures Agrees(ParseItem(NodeItem, j), j)
  {
    hide Accepts, Get, Same, Build, FileRef, ParseItems;
    ObjectAccepted(TREE_NODE, j);
    assert "label" in TREE_NODE.required && "depth" in TREE_NODE.required;
    CopiesShow(j);
    NonEmptyText(j, "label");
    NumberAccepted(TREE_NODE.properties["depth"], Get(j, "depth").value);
    SomeFlag(j, "isDir");
    SomeText(j, "note");
    RefShows(j);
    var slots := [Copy(j, "label"), Copy(j, "depth"), Copy(j, "isDir"), Copy(j, "note"), RefSlot(j)];
    assert slots[0].key == "label" && slots[1].key == "depth" && slots[2].key == "isDir" && slots[3].key == "note" && slots[4].key == "ref";
    BuildSame(slots, j);
  }

  lemma MetricAgrees(j: Json)
    requires Accepts(METRIC, j)
    ensures Agrees(ParseItem(MetricItem, j), j)
  {
    hide Accepts, Get, Same, Build, FileRef, ParseItems;
    ObjectAccepted(METRIC, j);
    assert "label" in METRIC.required && "value" in METRIC.required;
    CopiesShow(j);
    NonEmptyText(j, "label");
    TextOrNumberAccepted(Get(j, "value").value);
    SomeText(j, "hint");
    SomeName(SEVERITY_NAMES, j, "severity");
    var slots := [Copy(j, "label"), Copy(j, "value"), Copy(j, "hint"), Copy(j, "severity")];
    assert slots[0].key == "label" && slots[1].key == "value" && slots[2].key == "hint" && slots[3].key == "severity";
    BuildSame(slots, j);
  }

  lemma CardAgrees(j: Json)
    requires Accepts(CARD, j)
    ensures Agrees(ParseItem(CardItem, j), j)
  {
    hide Accepts, Get, Same, Build, FileRef, ParseItems;
    ObjectAccepted(CARD, j);
    assert "title" in CARD.required;
    CopiesShow(j);
    NonEmptyText(j, "title");
    SomeText(j, "body");
    SomeText(j, "badge");
    SomeName(SEVERITY_NAMES, j, "severity");
    RefShows(j);
    var slots := [Copy(j, "title"), Copy(j, "body"), Copy(j, "badge"), Copy(j, "severity"), RefSlot(j)];
    assert slots[0].key == "title" && slots[1].key == "body" && slots[2].key == "badge" && slots[3].key == "severity" && slots[4].key == "ref";
    BuildSame(slots, j);
  }

  lemma ActionAgrees(j: Json)
    requires Accepts(ACTION, j)
    ensures Agrees(ParseItem(ActionItem, j), j)
  {
    hide Accepts, Get, Same, Build, FileRef, ParseItems;
    ObjectAccepted(ACTION, j);
    assert "id" in ACTION.required && "label" in ACTION.required;
    CopiesShow(j);
    NonEmptyText(j, "id");
    NonEmptyText(j, "label");
    SomeText(j, "description");
    SomeFlag(j, "recommended");
    SomeName(VARIANTS, j, "variant");
    var slots := [Copy(j, "id"), Copy(j, "label"), Copy(j, "description"), Copy(j, "recommended"), Copy(j, "variant")];
    assert slots[0].key == "id" && slots[1].key == "label" && slots[2].key == "description" && slots[3].key == "recommended" && slots[4].key == "variant";
    BuildSame(slots, j);
  }

  lemma SeriesAgrees(j: Json)
    requires Accepts(SERIES, j)
    ensures Agrees(ParseItem(SeriesItem, j), j)
    decreases j, 2
  {
    hide Accepts, Get, Same, Build, FileRef, ParseItems;
    ObjectAccepted(SERIES, j);
    assert "name" in SERIES.required && "points" in SERIES.required;
    CopiesShow(j);
    NonEmptyText(j, "name");
    var points := Get(j, "points").value;
    ListAccepted(POINT, Some(1), Some(200), points);
    ItemsAgree(PointItem, points);
    var slots := [Copy(j, "name"), List("points", ParseItems(PointItem, points))];
    assert slots[0].key == "name" && slots[1].key == "points";
    BuildSame(slots, j);
  }

  lemma ItemAgrees(kind: Item, j: Json)
    requires Accepts(SchemaOf(kind), j)
    ensures Agrees(ParseItem(kind, j), j)
    decreases j, 3
  {
    hide Accepts, ParseItem, Agrees;
    match kind {
      case ColumnItem => ColumnAgrees(j);
      case RowItem => RowAgrees(j);
      case PointItem => PointAgrees(j);
      case SeriesItem => SeriesAgrees(j);
      case FindingItem => FindingAgrees(j);
      case NodeItem => NodeAgrees(j);
      case MetricItem => MetricAgrees(j);
      case CardItem => CardAgrees(j);
      case ActionItem => ActionAgrees(j);
    }
  }

  lemma {:induction false} FirstAgree(kind: Item, list: Json, n: nat)
    requires list.Arr? && n <= |list.items| && forall i :: 0 <= i < |list.items| ==> Accepts(SchemaOf(kind), list.items[i])
    ensures ParseFirst(kind, list, n).Some?
    ensures forall i :: 0 <= i < n ==> Same(ParseFirst(kind, list, n).value[i], list.items[i])
    decreases list, 0, n
  {
    hide Accepts, ParseItem, Same, SchemaOf;
    if n > 0 {
      FirstAgree(kind, list, n - 1);
      ItemAgrees(kind, list.items[n - 1]);
    }
  }

  /** A list of accepted items parses to itself. */
  lemma ItemsAgree(kind: Item, list: Json)
    requires list.Arr? && forall i :: 0 <= i < |list.items| ==> Accepts(SchemaOf(kind), list.items[i])
    ensures ParseItems(kind, list).Some? && Same(Arr(ParseItems(kind, list).value), list)
    decreases list, 1
  {
    hide Accepts, ParseFirst;
    FirstAgree(kind, list, |list.items|);
  }

  // ----- views -----

  lemma ConstAccepted(kind: string, j: Json)
    requires Accepts(KindIs(kind), j)
    ensures j == Str(kind)
  {
  }

  lemma TableAgrees(j: Json)
    requires Accepts(TABLE, j)
    ensures Get(j, "kind") == Some(Str("table")) && Agrees(TableView(j), j)
  {
    hide Accepts, Get, Same, Build, ParseItems;
    ObjectAccepted(TABLE, j);
    assert "kind" in TABLE.required && "columns" in TABLE.required && "rows" in TABLE.required;
    ConstAccepted("table", Get(j, "kind").value);
    CopiesShow(j);
    SomeText(j, "title");
    var columns := Get(j, "columns").value;
    ListAccepted(COLUMN, Some(1), Some(8), columns);
    ItemsAgree(ColumnItem, columns);
    var rows := Get(j, "rows").value;
    ListAccepted(ROW, None, Some(200), rows);
    ItemsAgree(RowItem, rows);
    var slots := [Copy(j, "kind"), Copy(j, "title"), List("columns", ParseItems(ColumnItem, columns)), List("rows", ParseItems(RowItem, rows))];
    assert slots[0].key == "kind" && slots[1].key == "title" && slots[2].key == "columns" && slots[3].key == "rows";
    BuildSame(slots, j);
  }

  lemma ChartAgrees(j: Json)
    requires Accepts(CHART, j)
    ensures Get(j, "kind") == Some(Str("chart")) && Agrees(ChartView(j), j)
  {
    hide Accepts, Get, Same, Build, ParseItems;
    ObjectAccepted(CHART, j);
    assert "kind" in CHART.required && "chart" in CHART.required && "series" in CHART.required;
    ConstAccepted("chart", Get(j, "kind").value);
    CopiesShow(j);
    SomeText(j, "title");
    TextAccepted(OneOf([Str("bar"), Str("line"), Str("area")]), Get(j, "chart").value);
    SomeText(j, "xLabel");
    SomeText(j, "yLabel");
    var series := Get(j, "series").value;
    ListAccepted(SERIES, Some(1), Some(5), series);
    ItemsAgree(SeriesItem, series);
    var slots := [Copy(j, "kind"), Copy(j, "title"), Copy(j, "chart"), Copy(j, "xLabel"), Copy(j, "yLabel"), List("series", ParseItems(SeriesItem, series))];
    assert slots[0].key == "kind" && slots[1].key == "title" && slots[2].key == "chart" && slots[3].key == "xLabel" && slots[4].key == "yLabel" && slots[5].key == "series";
    BuildSame(slots, j);
  }

  lemma DiffAgrees(j: Json)
    requires Accepts(DIFF, j)
    ensures Get(j, "kind") == Some(Str("diff")) && Agrees(DiffView(j), j)
  {
    hide Accepts, Get, Same, Build, ParseItems;
    ObjectAccepted(DIFF, j);
    assert "kind" in DIFF.required;
    ConstAccepted("diff", Get(j, "kind").value);
    CopiesShow(j);
    SomeText(j, "title");
    SomeText(j, "path");
    SomeText(j, "patch");
    SomeText(j, "before");
    SomeText(j, "after");
    var slots := [Copy(j, "kind"), Copy(j, "title"), Copy(j, "path"), Copy(j, "patch"), Copy(j, "before"), Copy(j, "after")];
    assert slots[0].key == "kind" && slots[1].key == "title" && slots[2].key == "path" && slots[3].key == "patch" && slots[4].key == "before" && slots[5].key == "after";
    BuildSame(slots, j);
  }

  lemma FindingsAgree(j: Json)
    requires Accepts(FINDINGS, j)
    ensures Get(j, "kind") == Some(Str("findings")) && Agrees(ListView(j, "items", FindingItem, 0, 100), j)
  {
    hide Accepts, Get, Same, Build, ParseItems;
    ObjectAccepted(FINDINGS, j);
    assert "kind" in FINDINGS.required && "items" in FINDINGS.required;
    ConstAccepted("findings", Get(j, "kind").value);
    CopiesShow(j);
    SomeText(j, "title");
    var items := Get(j, "items").value;
    ListAccepted(FINDING, None, Some(100), items);
    ItemsAgree(FindingItem, items);
    var slots := [Copy(j, "kind"), Copy(j, "title"), List("items", ParseItems(FindingItem, items))];
    assert slots[0].key == "kind" && slots[1].key == "title" && slots[2].key == "items";
    BuildSame(slots, j);
  }

  lemma TreeAgrees(j: Json)
    requires Accepts(TREE, j)
    ensures Get(j, "kind") == Some(Str("tree")) && Agrees(ListView(j, "nodes", NodeItem, 0, 300), j)
  {
    hide Accepts, Get, Same, Build, ParseItems;
    ObjectAccepted(TREE, j);
    assert "kind" in TREE.required && "nodes" in TREE.required;
    ConstAccepted("tree", Get(j, "kind").value);
    CopiesShow(j);
    SomeText(j, "title");
    var nodes := Get(j, "nodes").value;
    ListAccepted(TREE_NODE, None, Some(300), nodes);
    ItemsAgree(NodeItem, nodes);
    var slots := [Copy(j, "kind"), Copy(j, "title"), List("nodes", ParseItems(NodeItem, nodes))];
    assert slots[0].key == "kind" && slots[1].key == "title" && slots[2].key == "nodes";
    BuildSame(slots, j);
  }

  lemma MetricsAgree(j: Json)
    requires Accepts(METRICS, j)
    ensures Get(j, "kind") == Some(Str("metrics")) && Agrees(ListView(j, "items", MetricItem, 1, 8), j)
  {
    hide Accepts, Get, Same, Build, ParseItems;
    ObjectAccepted(METRICS, j);
    assert "kind" in METRICS.required && "items" in METRICS.required;
    ConstAccepted("metrics", Get(j, "kind").value);
    CopiesShow(j);
    SomeText(j, "title");
    var items := Get(j, "items").value;
    ListAccepted(METRIC, Some(1), Some(8), items);
    ItemsAgree(MetricItem, items);
    var slots := [Copy(j, "kind"), Copy(j, "title"), List("items", ParseItems(MetricItem, items))];
    assert slots[0].key == "kind" && slots[1].key == "title" && slots[2].key == "items";
    BuildSame(slots, j);
  }

  lemma CardsAgree(j: Json)
    requires Accepts(CARDS, j)
    ensures Get(j, "kind") == Some(Str("cards")) && Agrees(ListView(j, "items", CardItem, 0, 30), j)
  {
    hide Accepts, Get, Same, Build, ParseItems;
    ObjectAccepted(CARDS, j);
    assert "kind" in CARDS.required && "items" in CARDS.required;
    ConstAccepted("cards", Get(j, "kind").value);
    CopiesShow(j);
    SomeText(j, "title");
    var items := Get(j, "items").value;
    ListAccepted(CARD, None, Some(30), items);
    ItemsAgree(CardItem, items);
    var slots := [Copy(j, "kind"), Copy(j, "title"), List("items", ParseItems(CardItem, items))];
    assert slots[0].key == "kind" && slots[1].key == "title" && slots[2].key == "items";
    BuildSame(slots, j);
  }

  /** A view of any of the seven kinds that the schema accepts parses to itself. */
  lemma ViewAgrees(j: Json)
    requires Accepts(VIEW, j)
    ensures Agrees(ParseView(j), j)
  {
    hide Accepts, Get, Agrees, TableView, ChartView, DiffView, ListView;
    var i := AnyOfAccepted([TABLE, CHART, DIFF, FINDINGS, TREE, METRICS, CARDS], j);
    if i == 0 { TableAgrees(j); }
    else if i == 1 { ChartAgrees(j); }
    else if i == 2 { DiffAgrees(j); }
    else if i == 3 { FindingsAgree(j); }
    else if i == 4 { TreeAgrees(j); }
    else if i == 5 { MetricsAgree(j); }
    else { CardsAgree(j); }
  }

  // ----- the theorems -----

  /** Every `show_ui` input that passes validation is parsed, and the parsed input is the input. */
  lemma ShowUiAgrees(j: Json)
    requires Validate(SHOW_UI, j, []) == []
    ensures ParseShowUi(j).Some? && Same(ParseShowUi(j).value, j)
  {
    hide Accepts, Get, Same, ParseView, Validate;
    Schemas.ValidateIffAccepts(SHOW_UI, j, []);
    ObjectAccepted(SHOW_UI, j);
    assert "view" in SHOW_UI.required;
    ViewAgrees(Get(j, "view").value);
    var slots := [Slot("view", ParseView(Get(j, "view").value))];
    assert slots[0].key == "view";
    BuildSame(slots, j);
  }

  lemma {:induction false} ActionsAgree(list: Json, n: nat)
    requires list.Arr? && n <= |list.items| && forall i :: 0 <= i < |list.items| ==> Accepts(ACTION, list.items[i])
    ensures |Actions(list, n)| == n && forall i :: 0 <= i < n ==> Same(Actions(list, n)[i], list.items[i])
  {
    hide Accepts, Same, ParseItem;
    if n > 0 {
      ActionsAgree(list, n - 1);
      ActionAgrees(list.items[n - 1]);
    }
  }

  lemma ActionListAgrees(list: Json)
    requires Accepts(ListOf(ACTION, Some(1), Some(5)), list)
    ensures list.Arr? && Actions(list, |list.items|) != [] && Same(Arr(Actions(list, |list.items|)), list)
  {
    hide Accepts, Actions;
    ListAccepted(ACTION, Some(1), Some(5), list);
    ActionsAgree(list, |list.items|);
  }

  /** The slot of an optional property that passed validation copies it. */
  lemma KeptShows(j: Json, key: string, keep: bool)
    requires keep
    ensures Shows(Slot(key, Kept(Get(j, key), keep)), j)
  {
    CopyShows(j, key);
  }

  /** The input with the `selectable` flag the parser always shows. */
  ghost predicate SameButSelectable(parsed: Json, j: Json) {
    && parsed.Obj? && j.Obj?
    && Get(parsed, "selectable") == Some(Bool(Get(j, "selectable") == Some(Bool(true))))
    && (forall k :: k != "selectable" ==> (Get(parsed, k).Some? <==> Get(j, k).Some?))
    && (forall k :: k != "selectable" && Get(j, k).Some? ==> Same(Get(parsed, k).value, Get(j, k).value))
  }

  predicate AskKey(k: string) {
    k == "view" || k == "actions" || k == "question" || k == "allowNote" || k == "selectable"
  }

  /** What validation says of each part of an `ask_ui` input. */
  ghost predicate AskParts(j: Json) {
    && j.Obj? && (forall k :: Get(j, k).Some? ==> AskKey(k))
    && Get(j, "view").Some? && Accepts(VIEW, Get(j, "view").value)
    && Get(j, "actions").Some? && Accepts(ListOf(ACTION, Some(1), Some(5)), Get(j, "actions").value)
    && OptionalText(Get(j, "question")) && OptionalFlag(Get(j, "allowNote"))
  }

  lemma AskAccepted(j: Json)
    requires Accepts(ASK_UI, j)
    ensures AskParts(j)
  {
    hide Accepts, Get;
    ObjectAccepted(ASK_UI, j);
    assert "view" in ASK_UI.required && "actions" in ASK_UI.required;
    SomeText(j, "question");
    SomeFlag(j, "allowNote");
  }

  lemma AskPartsAgree(j: Json)
    requires AskParts(j)
    ensures ParseAskUi(j).Some? && SameButSelectable(ParseAskUi(j).value, j)
  {
    hide Accepts, Get, Same, ParseView, Actions, Build, Kept, Shows, AskKey, SameButSelectable;
    ViewAgrees(Get(j, "view").value);
    var list := Get(j, "actions").value;
    ActionListAgrees(list);
    KeptShows(j, "question", OptionalText(Get(j, "question")));
    KeptShows(j, "allowNote", OptionalFlag(Get(j, "allowNote")));
    var view, actions := ParseView(Get(j, "view").value), Some(Arr(Actions(list, |list.items|)));
    FilledShows(j, "view", view);
    FilledShows(j, "actions", actions);
    AskSlots(j, view, actions, Kept(Get(j, "question"), OptionalText(Get(j, "question"))),
             Kept(Get(j, "allowNote"), OptionalFlag(Get(j, "allowNote"))));
  }

  /**
   Every `ask_ui` input that passes validation is parsed; no action is dropped, and the parsed
   input is the input with the `selectable` flag filled in.
   */
  lemma AskUiAgrees(j: Json)
    requires Validate(ASK_UI, j, []) == []
    ensures ParseAskUi(j).Some? && SameButSelectable(ParseAskUi(j).value, j)
  {
    hide Validate, Accepts, ParseAskUi, SameButSelectable, AskParts;
    Schemas.ValidateIffAccepts(ASK_UI, j, []);
    AskAccepted(j);
    AskPartsAgree(j);
  }

  lemma FilledShows(j: Json, key: string, value: Option<Json>)
    requires Get(j, key).Some? && value.Some? && Same(value.value, Get(j, key).value)
    ensures Shows(Slot(key, value), j)
  {
  }

  lemma AskSlots(j: Json, view: Option<Json>, actions: Option<Json>, question: Option<Json>, note: Option<Json>)
    requires j.Obj? && Shows(Slot("view", view), j) && Shows(Slot("actions", actions), j)
    requires Shows(Slot("question", question), j) && Shows(Slot("allowNote", note), j)
    requires forall k :: Get(j, k).Some? ==> AskKey(k)
    ensures SameButSelectable(
      Build([Slot("view", view), Slot("actions", actions), Slot("question", question), Slot("allowNote", note),
             Slot("selectable", Some(Bool(Get(j, "selectable") == Some(Bool(true)))))]), j)
  {
    hide Get, Same, FieldsOf, FirstFilled, AskKey;
    var selectable := Some(Bool(Get(j, "selectable") == Some(Bool(true))));
    var front := [Slot("view", view), Slot("actions", actions), Slot("question", question), Slot("allowNote", note)];
    var slots := front + [Slot("selectable", selectable)];
    assert slots == [Slot("view", view), Slot("actions", actions), Slot("question", question), Slot("allowNote", note),
                     Slot("selectable", selectable)];
    var built := Build(slots);
    assert forall i :: 0 <= i < 4 ==> slots[i] == front[i] && Shows(front[i], j);
    SelectableShown(front, selectable);
    forall k | k != "selectable"
      ensures Get(built, k).Some? <==> Get(j, k).Some?
      ensures Get(j, k).Some? ==> Same(Get(built, k).value, Get(j, k).value)
    {
      BuiltFields(slots, k);
      if Get(built, k).Some? {
        var i :| 0 <= i < |slots| && slots[i] == Slot(k, Get(built, k));
        assert Shows(front[i], j);
      }
      if Get(j, k).Some? { assert exists i :: 0 <= i < 4 && slots[i].key == k by { AskKeys(k, slots); } }
    }
  }

  lemma SelectableShown(front: seq<Slot>, selectable: Option<Json>)
    requires selectable.Some? && forall i :: 0 <= i < |front| ==> front[i].key != "selectable"
    ensures Get(Build(front + [Slot("selectable", selectable)]), "selectable") == selectable
  {
    hide Get, FieldsOf, FirstFilled;
    var slots := front + [Slot("selectable", selectable)];
    BuiltFields(slots, "selectable");
    assert slots[|front|].key == "selectable";
  }

  lemma AskKeys(k: string, slots: seq<Slot>)
    requires AskKey(k) && k != "selectable" && |slots| == 5
    requires slots[0].key == "view" && slots[1].key == "actions" && slots[2].key == "question" && slots[3].key == "allowNote"
    ensures exists i :: 0 <= i < 4 && slots[i].key == k
  {
  }

  // ----- where the two languages differ -----

  /** The parsers take what the schema refuses: a field the schema does not know. */
  lemma ParsersIgnoreUnknownFields(extra: Json)
    ensures var j := Obj([Field("kind", Str("diff")), Field("colour", extra)]);
      ParseView(j).Some? && !Accepts(DIFF, j)
  {
    hide Build;
    var j := Obj([Field("kind", Str("diff")), Field("colour", extra)]);
    assert j.fields[1].key == "colour";
    GetTwo("kind", Str("diff"), "colour", extra, "kind");
    GetTwo("kind", Str("diff"), "colour", extra, "title");
    GetTwo("kind", Str("diff"), "colour", extra, "path");
    GetTwo("kind", Str("diff"), "colour", extra, "patch");
    GetTwo("kind", Str("diff"), "colour", extra, "before");
    GetTwo("kind", Str("diff"), "colour", extra, "after");
  }

  lemma GetTwo(a: string, x: Json, b: string, y: Json, key: string)
    ensures Get(Obj([Field(a, x), Field(b, y)]), key) == if a == key then Some(x) else if b == key then Some(y) else None
  {
    FindKeyCons(Field(a, x), [Field(b, y)], key);
    FindKeyCons(Field(b, y), [], key);
    assert [Field(a, x)] + [Field(b, y)] == [Field(a, x), Field(b, y)] && [Field(b, y)] + [] == [Field(b, y)];
  }

  /** They also take a severity wrapped in a list, which `String` unwraps. */
  lemma ParsersUnwrapSeverities(severity: Json, message: string)
    requires severity in SEVERITY_NAMES && message != ""
    ensures var j := Obj([Field("severity", Arr([severity])), Field("message", Str(message))]);
      ParseItem(FindingItem, j).Some? && !Accepts(FINDING, j)
  {
    hide Build, FileRef;
    var j := Obj([Field("severity", Arr([severity])), Field("message", Str(message))]);
    assert j.fields[0] == Field("severity", Arr([severity]));
    GetTwo("severity", Arr([severity]), "message", Str(message), "severity");
    GetTwo("severity", Arr([severity]), "message", Str(message), "message");
    GetTwo("severity", Arr([severity]), "message", Str(message), "detail");
    GetTwo("severity", Arr([severity]), "message", Str(message), "ref");
    assert Names(SEVERITY_NAMES, Arr([severity])) by { assert Arr([severity]).items[0] == severity; }
    if Accepts(FINDING, j) {
      ObjectAccepted(FINDING, j);
      TextAccepted(SEVERITY, Arr([severity]));
    }
  }
}
