/**
 The loops of the hand-written parsers: items until one does not parse, the two lists of a table,
 and the actions of a question, of which the bad ones are dropped.
 */
module Ui {
  import opened Wrappers
  import opened JsonModel
  import opened SchemaModel
  import M = UiModel
  import Agreement = UiAgreement

  /** The item loop of a view parser: items are pushed until one does not parse. */
  method ParseList(kind: M.Item, list: Json) returns (r: Option<seq<Json>>)
    requires list.Arr?
    ensures r == M.ParseItems(kind, list)
  {
    hide M.ParseItem;
    var parsed, i := [], 0;
    while i < |list.items|
      invariant i <= |list.items|
      invariant M.ParseFirst(kind, list, i) == Some(parsed)
    {
      var item := M.ParseItem(kind, list.items[i]);
      i := i + 1;
      if item.None? {
        StaysNone(kind, list, i);
        return None;
      }
      parsed := parsed + [item.value];
    }
    return Some(parsed);
  }

  lemma {:induction false} StaysNone(kind: M.Item, list: Json, n: nat)
    requires list.Arr? && n <= |list.items| && M.ParseFirst(kind, list, n).None?
    ensures M.ParseItems(kind, list).None?
    decreases |list.items| - n
  {
    hide M.ParseItem;
    if n < |list.items| { StaysNone(kind, list, n + 1); }
  }

  /** `tableView`, with its two loops. */
  method TableView(raw: Json) returns (view: Option<Json>)
    ensures view == M.TableView(raw)
  {
    hide M.ParseItems, M.Build;
    if !M.OptionalText(Get(raw, "title")) { return None; }
    var columnList, rowList := Get(raw, "columns"), Get(raw, "rows");
    if columnList.None? || !columnList.value.Arr? || rowList.None? || !rowList.value.Arr? { return None; }
    if |columnList.value.items| < 1 || |columnList.value.items| > 8 || |rowList.value.items| > 200 { return None; }
    var columns := ParseList(M.ColumnItem, columnList.value);
    if columns.None? { return None; }
    var rows := ParseList(M.RowItem, rowList.value);
    if rows.None? { return None; }
    return Some(M.Build([M.Copy(raw, "kind"), M.Copy(raw, "title"), M.List("columns", columns), M.List("rows", rows)]));
  }

  /** The `map` and `filter` over the actions of an `ask_ui` input. */
  method ParseActions(list: Json) returns (actions: seq<Json>)
    requires list.Arr?
    ensures actions == M.Actions(list, |list.items|)
    ensures Accepts(M.ASK_UI.properties["actions"], list) ==> |actions| == |list.items|
  {
    hide M.ParseItem, Accepts;
    actions := [];
    var i := 0;
    while i < |list.items|
      invariant i <= |list.items|
      invariant actions == M.Actions(list, i)
    {
      var action := M.ParseItem(M.ActionItem, list.items[i]);
      if action.Some? { actions := actions + [action.value]; }
      i := i + 1;
    }
    if Accepts(M.ListOf(M.ACTION, Some(1), Some(5)), list) {
      Agreement.ListAccepted(M.ACTION, Some(1), Some(5), list);
      Agreement.ActionsAgree(list, |list.items|);
    }
  }
}
